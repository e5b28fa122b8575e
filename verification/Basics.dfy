/** Types shared by the models of the multiplexer's components. */
module Basics {

  datatype Option<+T> = None | Some(value: T)

  /** No element occurs twice. */
  ghost predicate Distinct<T(!new)>(xs: seq<T>) {
    forall i, j :: 0 <= i < j < |xs| ==> xs[i] != xs[j]
  }

  /** The larger of two times. */
  function Max(a: int, b: int): int { if a < b then b else a }
}

/** Splitting text at a separator, as strings.Split does. */
module Texts {

  function Split(s: string, sep: char): (parts: seq<string>)
    ensures |parts| >= 1
  {
    if s == "" then [""]
    else
      var rest := Split(s[1..], sep);
      if s[0] == sep then [""] + rest else [[s[0]] + rest[0]] + rest[1..]
  }

  lemma {:induction false} SplitOnce(s: string, sep: char)
    requires |Split(s, sep)| == 1
    ensures Split(s, sep)[0] == s
  {
    if s != "" {
      SplitOnce(s[1..], sep);
    }
  }

  lemma {:induction false} SplitPlain(a: string, sep: char)
    requires sep !in a
    ensures Split(a, sep) == [a]
  {
    if a != "" {
      SplitPlain(a[1..], sep);
      assert [a[0]] + a[1..] == a;
    }
  }

  lemma {:induction false} SplitHead(a: string, sep: char, b: string)
    requires sep !in a
    ensures Split(a + [sep] + b, sep) == [a] + Split(b, sep)
  {
    var s := a + [sep] + b;
    if a == "" {
      assert s[1..] == b;
    } else {
      assert s[1..] == a[1..] + [sep] + b;
      SplitHead(a[1..], sep, b);
      assert [a[0]] + a[1..] == a;
    }
  }
}

/** Tool metadata cached per server (tool.go). */
module Tools {

  datatype ToolInfo = ToolInfo(
    server: string,
    name: string,
    description: string,
    inputSchema: string,
    readOnly: bool,
    write: bool,
    destructive: bool,
    idempotent: bool,
    openWorld: bool,
    custom: map<string, string>)

  /** The part of a tool list that decides whether a refresh counts as a change. */
  function Identity(tools: seq<ToolInfo>): (ids: seq<(string, string)>)
    ensures |ids| == |tools|
    ensures forall i :: 0 <= i < |tools| ==> ids[i] == (tools[i].server, tools[i].name)
  {
    seq(|tools|, i requires 0 <= i < |tools| => (tools[i].server, tools[i].name))
  }

  /** toolListsEqual: same (Server, Name) pairs in the same order. */
  method ToolListsEqual(a: seq<ToolInfo>, b: seq<ToolInfo>) returns (equal: bool)
    ensures equal <==> Identity(a) == Identity(b)
  {
    if |a| != |b| {
      return false;
    }
    var i := 0;
    while i < |a|
      invariant 0 <= i <= |a|
      invariant forall j :: 0 <= j < i ==> Identity(a)[j] == Identity(b)[j]
    {
      if a[i].server != b[i].server || a[i].name != b[i].name {
        assert Identity(a)[i] != Identity(b)[i];
        return false;
      }
      i := i + 1;
    }
    return true;
  }
}
