/**
 CallResult and its deep copy (tool.go). A result is an object whose parts may refer to
 byte slices; its value is what a reader sees, its footprint what a writer could change.
 */
module CallResults {
  import opened Basics

  newtype byte = x: int | 0 <= x < 256

  datatype ContentKind = ContentText | ContentImage | ContentOther

  /** A Go struct value; nil slices are null. */
  datatype ContentPart = ContentPart(kind: ContentKind, text: string, mimeType: string,
                                     data: array?<byte>, raw: array?<byte>)

  datatype PartValue = PartValue(kind: ContentKind, text: string, mimeType: string,
                                 data: Option<seq<byte>>, raw: Option<seq<byte>>)

  datatype ResultValue = ResultValue(text: string, parts: seq<PartValue>, isError: bool)

  /** The byte slices a part refers to. */
  ghost function Slices(p: ContentPart): set<object> {
    (if p.data == null then {} else {p.data}) + (if p.raw == null then {} else {p.raw})
  }

  ghost function AllSlices(parts: seq<ContentPart>): set<object> {
    set i, o | 0 <= i < |parts| && o in Slices(parts[i]) :: o
  }

  ghost function Bytes(a: array?<byte>): Option<seq<byte>>
    reads a
  {
    if a == null then None else Some(a[..])
  }

  ghost function ValueOf(p: ContentPart): PartValue
    reads Slices(p)
  {
    PartValue(p.kind, p.text, p.mimeType, Bytes(p.data), Bytes(p.raw))
  }

  ghost function ValuesOf(parts: seq<ContentPart>): (vs: seq<PartValue>)
    reads AllSlices(parts)
    ensures |vs| == |parts|
    ensures forall i :: 0 <= i < |parts| ==> vs[i] == ValueOf(parts[i])
  {
    if parts == [] then []
    else
      var n := |parts| - 1;
      assert AllSlices(parts[..n]) <= AllSlices(parts) && Slices(parts[n]) <= AllSlices(parts);
      ValuesOf(parts[..n]) + [ValueOf(parts[n])]
  }

  /** bytes.Clone of a possibly nil slice. */
  method CloneBytes(a: array?<byte>) returns (b: array?<byte>)
    ensures a == null <==> b == null
    ensures b != null ==> fresh(b)
    ensures Bytes(b) == Bytes(a)
  {
    if a == null {
      b := null;
    } else {
      b := new byte[a.Length](i requires 0 <= i < a.Length reads a => a[i]);
      assert b[..] == a[..];
    }
  }

  /** The same kind, text and MIME type, nil slices where there were nil slices, and the same bytes. */
  ghost predicate SamePart(q: ContentPart, p: PartValue)
    reads Slices(q)
  {
    && q.kind == p.kind && q.text == p.text && q.mimeType == p.mimeType
    && (if p.data.None? then q.data == null else q.data != null && q.data[..] == p.data.value)
    && (if p.raw.None? then q.raw == null else q.raw != null && q.raw[..] == p.raw.value)
  }

  /** A value says all there is to say about a part. */
  lemma ValueIsWhole(q: ContentPart, p: PartValue)
    ensures ValueOf(q) == p <==> SamePart(q, p)
  {
  }

  /** A value says all there is to say about a result. */
  lemma ResultIsWhole(r: CallResult, v: ResultValue)
    ensures r.Value() == v <==>
      && r.text == v.text && r.isError == v.isError && r.parts.Length == |v.parts|
      && forall i :: 0 <= i < |v.parts| ==> SamePart(r.parts[i], v.parts[i])
  {
    hide ValuesOf;
    assert r.Value() == v ==> ValuesOf(r.parts[..]) == v.parts;
    if r.parts.Length == |v.parts| {
      forall i | 0 <= i < |v.parts|
        ensures ValuesOf(r.parts[..])[i] == v.parts[i] <==> SamePart(r.parts[i], v.parts[i])
      {
        ValueIsWhole(r.parts[i], v.parts[i]);
      }
    }
  }

  method ClonePart(p: ContentPart) returns (q: ContentPart)
    ensures fresh(Slices(q)) && ValueOf(q) == ValueOf(p)
  {
    var data := CloneBytes(p.data);
    var raw := CloneBytes(p.raw);
    q := p.(data := data, raw := raw);
  }

  method CloneParts(parts: array<ContentPart>) returns (cloned: array<ContentPart>)
    ensures fresh(cloned) && fresh(AllSlices(cloned[..]))
    ensures ValuesOf(cloned[..]) == ValuesOf(parts[..])
  {
    hide ValuesOf;
    ghost var values := ValuesOf(parts[..]);
    cloned := new ContentPart[parts.Length](_ => ContentPart(ContentText, "", "", null, null));
    var i := 0;
    while i < parts.Length
      invariant 0 <= i <= parts.Length
      invariant forall j :: 0 <= j < cloned.Length ==> fresh(Slices(cloned[j]))
      invariant forall j :: 0 <= j < i ==> ValueOf(cloned[j]) == values[j]
      modifies cloned
    {
      assert values[i] == ValueOf(parts[i]);
      var q := ClonePart(parts[i]);
      cloned[i] := q;
      i := i + 1;
    }
    assert ValuesOf(cloned[..]) == values;
  }

  class CallResult {
    var text: string
    var parts: array<ContentPart>
    var isError: bool

    ghost function Footprint(): set<object>
      reads this, parts
    {
      {this, parts} + AllSlices(parts[..])
    }

    ghost function Value(): ResultValue
      reads this, parts, AllSlices(parts[..])
    {
      ResultValue(text, ValuesOf(parts[..]), isError)
    }

    constructor (text: string, parts: array<ContentPart>, isError: bool)
      ensures this.text == text && this.parts == parts && this.isError == isError
    {
      this.text, this.parts, this.isError := text, parts, isError;
    }

    /** A deep copy: the same value, and nothing shared with the original. */
    method Clone() returns (copy: CallResult)
      ensures fresh(copy.Footprint())
      ensures copy.Value() == old(Value())
    {
      var cloned := CloneParts(parts);
      copy := new CallResult(text, cloned, isError);
    }
  }
}
