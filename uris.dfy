/** EMF URIs, reduced to what the rename bookkeeping looks at: the part that names a
    resource and the optional fragment that locates an element inside it. */
module Uris {
  import opened Options

  datatype Uri = Uri(resource: string, fragment: Option<string>) {

    /** The URI of the resource alone, without any fragment. */
    function TrimFragment(): Uri
    {
      Uri(resource, None)
    }

    /** This URI with its fragment set to `f` (any previous fragment is dropped). */
    function AppendFragment(f: Option<string>): Uri
    {
      Uri(resource, f)
    }
  }

  /** Trimming forgets whatever fragment was appended. */
  lemma TrimAfterAppend(u: Uri, f: Option<string>)
    ensures u.AppendFragment(f).TrimFragment() == u.TrimFragment()
  {
  }

  /** Trimming twice is trimming once. */
  lemma TrimIdempotent(u: Uri)
    ensures u.TrimFragment().TrimFragment() == u.TrimFragment()
  {
  }

  /** A URI is its resource URI with its own fragment appended. */
  lemma AppendOwnFragment(u: Uri)
    ensures u.TrimFragment().AppendFragment(u.fragment) == u
    ensures u.AppendFragment(u.fragment) == u
  {
  }
}
