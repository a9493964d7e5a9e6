/** `SerializableReferenceDescription`: a mutable five-field record that is written to and
    read from an object stream in a fixed field order, and that can be moved to a new
    resource URI when the resource holding its source is renamed.

    The byte codecs for URIs and Ecore elements are not part of this model: a stream is a
    sequence of tokens, one per field written, and each token carries the value it encodes,
    so the codecs are taken to invert each other. */
module Persistence {
  import opened Options
  import opened Uris
  import opened Descriptions

  /** One item of an object stream. */
  datatype Token =
    | UriToken(uri: Option<Uri>)
    | EcoreToken(element: Option<EReference>)
    | IntToken(value: Int32)

  /** Why a read from an object stream fails (an `IOException` in the Java code). */
  datatype ReadError = EndOfStream | UnexpectedToken

  // ---------------------------------------------------------------------------
  // Specification of the stream format

  /** The tokens `writeExternal` appends for `d`: source URI, target URI, container URI,
      the `EReference`, then `indexInList` as a 32-bit int. */
  function Encode(d: ReferenceDescription): seq<Token>
  {
    [UriToken(d.source), UriToken(d.target), UriToken(d.container),
     EcoreToken(d.eReference), IntToken(d.indexInList)]
  }

  /** How `readExternal` leaves things: the fields it has overwritten, the tokens left in
      the stream, and whether it completed. */
  datatype ReadState = ReadState(fields: ReferenceDescription, rest: seq<Token>, outcome: Outcome<ReadError>)

  function UriAt(s: seq<Token>): Outcome<ReadError>
  {
    if s == [] then Fail(EndOfStream) else if s[0].UriToken? then Pass else Fail(UnexpectedToken)
  }

  function EcoreAt(s: seq<Token>): Outcome<ReadError>
  {
    if s == [] then Fail(EndOfStream) else if s[0].EcoreToken? then Pass else Fail(UnexpectedToken)
  }

  function IntAt(s: seq<Token>): Outcome<ReadError>
  {
    if s == [] then Fail(EndOfStream) else if s[0].IntToken? then Pass else Fail(UnexpectedToken)
  }

  /** `readExternal` applied to a record holding `d` and a stream holding `s`: the five
      fields are read in order and each one overwrites its field as soon as it is read; the
      first read that fails ends the operation, leaving the fields read before it overwritten
      and the failing token in the stream. */
  function ReadExternalSpec(d: ReferenceDescription, s: seq<Token>): ReadState
  {
    if UriAt(s).Fail? then ReadState(d, s, UriAt(s)) else
    var d1 := d.(source := s[0].uri);
    var s1 := s[1..];
    if UriAt(s1).Fail? then ReadState(d1, s1, UriAt(s1)) else
    var d2 := d1.(target := s1[0].uri);
    var s2 := s1[1..];
    if UriAt(s2).Fail? then ReadState(d2, s2, UriAt(s2)) else
    var d3 := d2.(container := s2[0].uri);
    var s3 := s2[1..];
    if EcoreAt(s3).Fail? then ReadState(d3, s3, EcoreAt(s3)) else
    var d4 := d3.(eReference := s3[0].element);
    var s4 := s3[1..];
    if IntAt(s4).Fail? then ReadState(d4, s4, IntAt(s4)) else
    ReadState(d4.(indexInList := s4[0].value), s4[1..], Pass)
  }

  /** A stream starting with the five tokens of one record. */
  predicate StartsWithRecord(s: seq<Token>)
  {
    |s| >= 5 && s[0].UriToken? && s[1].UriToken? && s[2].UriToken? && s[3].EcoreToken? && s[4].IntToken?
  }

  /** The record whose five tokens begin `s`. */
  function RecordAt(s: seq<Token>): ReferenceDescription
    requires StartsWithRecord(s)
  {
    ReferenceDescription(s[0].uri, s[1].uri, s[2].uri, s[3].element, s[4].value)
  }

  /** `readExternal` completes exactly when the stream starts with a whole record; it then
      consumes those five tokens, and every one of the five fields is overwritten: the
      result does not depend on what the record held before. */
  lemma {:induction false} ReadCompletesOnRecord(d: ReferenceDescription, s: seq<Token>)
    ensures ReadExternalSpec(d, s).outcome.Pass? <==> StartsWithRecord(s)
    ensures StartsWithRecord(s) ==>
      ReadExternalSpec(d, s) == ReadState(RecordAt(s), s[5..], Pass)
  {
    if StartsWithRecord(s) {
      assert s[1..][1..][1..][1..][1..] == s[5..];
    }
  }

  /** A failed read never touches the fields after the one that failed: at least the
      `indexInList` of the old record survives, and nothing is consumed past the failure. */
  lemma {:induction false} ReadFailureKeepsIndex(d: ReferenceDescription, s: seq<Token>)
    requires !StartsWithRecord(s)
    ensures ReadExternalSpec(d, s).outcome.Fail?
    ensures ReadExternalSpec(d, s).fields.indexInList == d.indexInList
    ensures |ReadExternalSpec(d, s).rest| > |s| - 5
  {
    ReadCompletesOnRecord(d, s);
  }

  /** Round trip: reading back what `writeExternal` wrote, from a stream where the record
      may be followed by other data, restores all five fields and leaves the rest. */
  lemma {:induction false} ReadWhatWasWritten(before: ReferenceDescription, d: ReferenceDescription, rest: seq<Token>)
    ensures ReadExternalSpec(before, Encode(d) + rest) == ReadState(d, rest, Pass)
  {
    var s := Encode(d) + rest;
    assert StartsWithRecord(s);
    ReadCompletesOnRecord(before, s);
    assert s[5..] == rest;
  }

  /** Writing two records one after the other and reading twice gives both back in order. */
  lemma {:induction false} ReadTwoRecords(d1: ReferenceDescription, d2: ReferenceDescription, init: ReferenceDescription)
    ensures ReadExternalSpec(init, Encode(d1) + Encode(d2)) == ReadState(d1, Encode(d2), Pass)
    ensures ReadExternalSpec(d1, Encode(d2)) == ReadState(d2, [], Pass)
  {
    ReadWhatWasWritten(init, d1, Encode(d2));
    ReadWhatWasWritten(d1, d2, []);
    assert Encode(d2) + [] == Encode(d2);
  }

  /** A record cut short fails at the end of the stream, whatever the codecs make of the
      items before the cut: the items that are there are consumed and the fields they hold
      are read, and the old `indexInList` survives. */
  lemma ReadTruncatedRecord(before: ReferenceDescription, d: ReferenceDescription, k: nat)
    requires k < 5
    ensures var r := ReadExternalSpec(before, Encode(d)[..k]);
      && r.outcome == Fail(EndOfStream) && r.rest == []
      && r.fields.indexInList == before.indexInList
      && (k > 0 ==> r.fields.source == d.source)
      && (k > 1 ==> r.fields.target == d.target)
      && (k > 2 ==> r.fields.container == d.container)
      && (k > 3 ==> r.fields.eReference == d.eReference)
  {
  }

  /** `updateResourceURI(newURI, oldURI)`: the source keeps its fragment and moves to
      `newURI`; the target does the same only when it lived in `oldURI`. */
  function Rehome(d: ReferenceDescription, newUri: Uri, oldUri: Uri): ReferenceDescription
    requires d.source.Some? && d.target.Some?
  {
    var source := newUri.AppendFragment(d.source.value.fragment);
    var target :=
      if d.target.value.TrimFragment() == oldUri then newUri.AppendFragment(d.target.value.fragment)
      else d.target.value;
    d.(source := Some(source), target := Some(target))
  }

  /** The source is moved whatever resource it was in before, keeping its fragment. */
  lemma RehomeSource(d: ReferenceDescription, newUri: Uri, oldUri: Uri)
    requires d.source.Some? && d.target.Some?
    ensures var r := Rehome(d, newUri, oldUri);
      r.source.Some? && r.source.value.resource == newUri.resource
      && r.source.value.fragment == d.source.value.fragment
  {
  }

  /** The target keeps its fragment, and it is moved to `newUri` exactly when its resource
      URI is `oldUri` (or when it was already there); otherwise it is left as it was. */
  lemma RehomeTarget(d: ReferenceDescription, newUri: Uri, oldUri: Uri)
    requires d.source.Some? && d.target.Some?
    ensures var r := Rehome(d, newUri, oldUri);
      var moved := newUri.AppendFragment(d.target.value.fragment);
      && r.target.Some?
      && r.target.value.fragment == d.target.value.fragment
      && (r.target.value == moved <==> d.target.value.TrimFragment() == oldUri || d.target.value == moved)
      && (d.target.value.TrimFragment() != oldUri ==> r.target == d.target)
  {
  }

  /** Moving a description leaves its container, its `EReference` and its index alone. */
  lemma RehomeKeepsOtherFields(d: ReferenceDescription, newUri: Uri, oldUri: Uri)
    requires d.source.Some? && d.target.Some?
    ensures var r := Rehome(d, newUri, oldUri);
      r.container == d.container && r.eReference == d.eReference && r.indexInList == d.indexInList
  {
  }

  /** Moving twice with the same arguments is the same as moving once. */
  lemma RehomeIdempotent(d: ReferenceDescription, newUri: Uri, oldUri: Uri)
    requires d.source.Some? && d.target.Some?
    ensures Rehome(Rehome(d, newUri, oldUri), newUri, oldUri) == Rehome(d, newUri, oldUri)
  {
  }

  // ---------------------------------------------------------------------------
  // Object streams

  /** `ObjectOutput`: everything written so far. */
  class ObjectOutput {
    var written: seq<Token>

    constructor ()
      ensures written == []
    {
      written := [];
    }

    method WriteUri(u: Option<Uri>)
      modifies this
      ensures written == old(written) + [UriToken(u)]
    {
      written := written + [UriToken(u)];
    }

    method WriteEcoreElement(e: Option<EReference>)
      modifies this
      ensures written == old(written) + [EcoreToken(e)]
    {
      written := written + [EcoreToken(e)];
    }

    method WriteInt(i: Int32)
      modifies this
      ensures written == old(written) + [IntToken(i)]
    {
      written := written + [IntToken(i)];
    }
  }

  /** `ObjectInput`: what is left to read. A read of the wrong kind of item, or past the
      end, fails and consumes nothing. */
  class ObjectInput {
    var remaining: seq<Token>

    constructor (s: seq<Token>)
      ensures remaining == s
    {
      remaining := s;
    }

    method ReadUri() returns (r: Outcome<ReadError>, u: Option<Uri>)
      modifies this
      ensures r == UriAt(old(remaining))
      ensures r.Pass? ==> u == old(remaining)[0].uri && remaining == old(remaining)[1..]
      ensures r.Fail? ==> remaining == old(remaining)
    {
      r := UriAt(remaining);
      u := None;
      if r.Pass? {
        u := remaining[0].uri;
        remaining := remaining[1..];
      }
    }

    method ReadEcoreElement() returns (r: Outcome<ReadError>, e: Option<EReference>)
      modifies this
      ensures r == EcoreAt(old(remaining))
      ensures r.Pass? ==> e == old(remaining)[0].element && remaining == old(remaining)[1..]
      ensures r.Fail? ==> remaining == old(remaining)
    {
      r := EcoreAt(remaining);
      e := None;
      if r.Pass? {
        e := remaining[0].element;
        remaining := remaining[1..];
      }
    }

    method ReadInt() returns (r: Outcome<ReadError>, i: Int32)
      modifies this
      ensures r == IntAt(old(remaining))
      ensures r.Pass? ==> i == old(remaining)[0].value && remaining == old(remaining)[1..]
      ensures r.Fail? ==> remaining == old(remaining)
    {
      r := IntAt(remaining);
      i := 0;
      if r.Pass? {
        i := remaining[0].value;
        remaining := remaining[1..];
      }
    }
  }

  // ---------------------------------------------------------------------------
  // The record

  class SerializableReferenceDescription {
    var sourceEObjectUri: Option<Uri>
    var targetEObjectUri: Option<Uri>
    var containerEObjectUri: Option<Uri>
    var eReference: Option<EReference>
    var indexInList: Int32

    /** The record as an `IReferenceDescription` value. */
    function Description(): ReferenceDescription
      reads this
    {
      ReferenceDescription(sourceEObjectUri, targetEObjectUri, containerEObjectUri, eReference, indexInList)
    }

    /** A new record has every reference null and index 0, as Java initialises fields. */
    constructor ()
      ensures Description() == ReferenceDescription(None, None, None, None, 0)
    {
      sourceEObjectUri := None;
      targetEObjectUri := None;
      containerEObjectUri := None;
      eReference := None;
      indexInList := 0;
    }

    method ReadExternal(input: ObjectInput) returns (r: Outcome<ReadError>)
      modifies this, input
      ensures ReadExternalSpec(old(Description()), old(input.remaining))
           == ReadState(Description(), input.remaining, r)
    {
      var u: Option<Uri>;
      r, u := input.ReadUri();
      if r.Fail? { return; }
      sourceEObjectUri := u;
      r, u := input.ReadUri();
      if r.Fail? { return; }
      targetEObjectUri := u;
      r, u := input.ReadUri();
      if r.Fail? { return; }
      containerEObjectUri := u;
      var e: Option<EReference>;
      r, e := input.ReadEcoreElement();
      if r.Fail? { return; }
      eReference := e;
      var i: Int32;
      r, i := input.ReadInt();
      if r.Fail? { return; }
      indexInList := i;
    }

    method WriteExternal(output: ObjectOutput)
      modifies output
      ensures output.written == old(output.written) + Encode(Description())
    {
      output.WriteUri(sourceEObjectUri);
      output.WriteUri(targetEObjectUri);
      output.WriteUri(containerEObjectUri);
      output.WriteEcoreElement(eReference);
      output.WriteInt(indexInList);
    }

    /** Dereferences both URIs, so neither may be null. */
    method UpdateResourceUri(newUri: Uri, oldUri: Uri)
      requires sourceEObjectUri.Some? && targetEObjectUri.Some?
      modifies this
      ensures Description() == Rehome(old(Description()), newUri, oldUri)
    {
      var fragment := sourceEObjectUri.value.fragment;
      sourceEObjectUri := Some(newUri.AppendFragment(fragment));
      var trimmed := targetEObjectUri.value.TrimFragment();
      if trimmed == oldUri {
        var targetFragment := targetEObjectUri.value.fragment;
        targetEObjectUri := Some(newUri.AppendFragment(targetFragment));
      }
    }

    method GetSourceEObjectUri() returns (u: Option<Uri>)
      ensures u == Description().source
    {
      u := sourceEObjectUri;
    }

    method SetSourceEObjectUri(u: Option<Uri>)
      modifies this
      ensures Description() == old(Description()).(source := u)
    {
      sourceEObjectUri := u;
    }

    method GetTargetEObjectUri() returns (u: Option<Uri>)
      ensures u == Description().target
    {
      u := targetEObjectUri;
    }

    method SetTargetEObjectUri(u: Option<Uri>)
      modifies this
      ensures Description() == old(Description()).(target := u)
    {
      targetEObjectUri := u;
    }

    method GetContainerEObjectUri() returns (u: Option<Uri>)
      ensures u == Description().container
    {
      u := containerEObjectUri;
    }

    method SetContainerEObjectUri(u: Option<Uri>)
      modifies this
      ensures Description() == old(Description()).(container := u)
    {
      containerEObjectUri := u;
    }

    method GetEReference() returns (e: Option<EReference>)
      ensures e == Description().eReference
    {
      e := eReference;
    }

    method SetEReference(e: Option<EReference>)
      modifies this
      ensures Description() == old(Description()).(eReference := e)
    {
      eReference := e;
    }

    method GetIndexInList() returns (i: Int32)
      ensures i == Description().indexInList
    {
      i := indexInList;
    }

    method SetIndexInList(i: Int32)
      modifies this
      ensures Description() == old(Description()).(indexInList := i)
    {
      indexInList := i;
    }
  }

  /** Writing a record and reading the stream into another record makes the second an
      exact copy of the first, whatever it held before. */
  method WriteThenRead(original: SerializableReferenceDescription, copy: SerializableReferenceDescription)
    returns (r: Outcome<ReadError>)
    modifies copy
    ensures r == Pass && copy.Description() == original.Description()
  {
    var output := new ObjectOutput();
    original.WriteExternal(output);
    var input := new ObjectInput(output.written);
    r := copy.ReadExternal(input);
    ReadWhatWasWritten(old(copy.Description()), original.Description(), []);
    assert Encode(original.Description()) + [] == Encode(original.Description());
  }
}
