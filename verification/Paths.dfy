/**
 Project-relative path strings: what they are cleaned to, which are refused, and when two of them overlap.

 Cleaning is lexical, with `/` as the separator. `Walk` is the independent reading: it follows a path
 component by component from a directory, and fails when `..` would leave that directory.
 */
module Paths {
  import opened Wrappers
  import opened FileTree

  // ---------------------------------------------------------------------------------------------
  // Components
  // ---------------------------------------------------------------------------------------------

  function Split(s: string): (parts: seq<string>)
    ensures parts != []
  {
    if s == "" then [""]
    else
      var rest := Split(s[1..]);
      if s[0] == '/' then [""] + rest else [[s[0]] + rest[0]] + rest[1..]
  }

  function Join(parts: seq<string>): string
    requires parts != []
  {
    if |parts| == 1 then parts[0] else parts[0] + "/" + Join(parts[1..])
  }

  predicate Plain(s: string) {
    '/' !in s
  }

  predicate Ordinary(s: string) {
    Plain(s) && s != "" && s != "." && s != ".."
  }

  predicate AllPlain(parts: seq<string>) {
    forall i :: 0 <= i < |parts| ==> Plain(parts[i])
  }

  predicate AllOrdinary(parts: seq<string>) {
    forall i :: 0 <= i < |parts| ==> Ordinary(parts[i])
  }

  lemma {:induction false} SplitIsPlain(s: string)
    ensures AllPlain(Split(s))
  {
    if s != "" {
      SplitIsPlain(s[1..]);
    }
  }

  lemma {:induction false} SplitPlain(part: string, rest: string)
    requires Plain(part)
    ensures Split(part) == [part]
    ensures Split(part + "/" + rest) == [part] + Split(rest)
  {
    var s := part + "/" + rest;
    if part == "" {
      assert s[0] == '/' && s[1..] == rest;
    } else {
      SplitPlain(part[1..], rest);
      assert s[0] == part[0] && s[1..] == part[1..] + "/" + rest;
      assert [part[0]] + part[1..] == part;
    }
  }

  lemma {:induction false} SplitJoin(parts: seq<string>)
    requires parts != [] && AllPlain(parts)
    ensures Split(Join(parts)) == parts
  {
    if |parts| == 1 {
      SplitPlain(parts[0], "");
    } else {
      SplitJoin(parts[1..]);
      SplitPlain(parts[0], Join(parts[1..]));
    }
  }

  // ---------------------------------------------------------------------------------------------
  // Cleaning
  // ---------------------------------------------------------------------------------------------

  predicate Absolute(s: string) {
    s != "" && s[0] == '/'
  }

  /** One component onto the cleaned ones; a rooted path has nothing above its root. */
  function Push(done: seq<string>, part: string, rooted: bool): seq<string> {
    if part == "" || part == "." then done
    else if part != ".." then done + [part]
    else if done != [] && done[|done| - 1] != ".." then done[..|done| - 1]
    else if rooted then done
    else done + [part]
  }

  function Reduce(done: seq<string>, parts: seq<string>, rooted: bool): seq<string>
    decreases |parts|
  {
    if parts == [] then done else Reduce(Push(done, parts[0], rooted), parts[1..], rooted)
  }

  function Clean(s: string): string {
    var parts := Reduce([], Split(s), Absolute(s));
    if Absolute(s) then "/" + (if parts == [] then "" else Join(parts))
    else if parts == [] then "." else Join(parts)
  }

  predicate HasPrefix(s: string, prefix: string) {
    prefix <= s
  }

  function CleanProjectRelative(relative: string): Option<string> {
    var clean := Clean(relative);
    if Absolute(relative) || clean == "." || clean == ".." || HasPrefix(clean, "../") then None else Some(clean)
  }

  predicate PathOverlaps(left: string, right: string) {
    var l, r := Clean(left), Clean(right);
    l == r || HasPrefix(l, r + "/") || HasPrefix(r, l + "/")
  }

  // ---------------------------------------------------------------------------------------------
  // What is accepted
  // ---------------------------------------------------------------------------------------------

  /** Where following `parts` from `at` leads, when it never goes above the start. */
  function Walk(at: seq<string>, parts: seq<string>): Option<seq<string>>
    decreases |parts|
  {
    if parts == [] then Some(at)
    else if parts[0] == "" || parts[0] == "." then Walk(at, parts[1..])
    else if parts[0] != ".." then Walk(at + [parts[0]], parts[1..])
    else if at == [] then None
    else Walk(at[..|at| - 1], parts[1..])
  }

  /** A path that has left the start once is cleaned to one that begins with `..`. */
  lemma {:induction false} ReduceEscapes(done: seq<string>, parts: seq<string>)
    requires done != [] && done[0] == ".."
    ensures Reduce(done, parts, false) != [] && Reduce(done, parts, false)[0] == ".."
    decreases |parts|
  {
    if parts != [] {
      ReduceEscapes(Push(done, parts[0], false), parts[1..]);
    }
  }

  lemma {:induction false} ReduceWalks(at: seq<string>, parts: seq<string>)
    requires AllOrdinary(at) && AllPlain(parts)
    ensures var done := Reduce(at, parts, false);
            match Walk(at, parts)
            case Some(end) => done == end && AllOrdinary(end)
            case None => done != [] && done[0] == ".."
    decreases |parts|
  {
    if parts != [] {
      var next := Push(at, parts[0], false);
      if parts[0] == ".." && at == [] {
        ReduceEscapes(next, parts[1..]);
      } else {
        ReduceWalks(next, parts[1..]);
      }
    }
  }

  lemma {:induction false} ReducePlain(done: seq<string>, parts: seq<string>, rooted: bool)
    requires AllPlain(done) && AllPlain(parts)
    ensures AllPlain(Reduce(done, parts, rooted))
    decreases |parts|
  {
    if parts != [] {
      ReducePlain(Push(done, parts[0], rooted), parts[1..], rooted);
    }
  }

  /** `..` first is what the prefix test looks for. */
  lemma BeginsWithDotDot(parts: seq<string>)
    requires parts != [] && AllPlain(parts)
    ensures parts[0] == ".." <==> Join(parts) == ".." || HasPrefix(Join(parts), "../")
  {
    var s := Join(parts);
    if parts[0] == ".." && |parts| > 1 {
      assert s[..3] == "../";
    }
    if s == ".." || HasPrefix(s, "../") {
      var rest := if s == ".." then "" else s[3..];
      SplitJoin(parts);
      SplitPlain("..", rest);
      assert s != ".." ==> s == ".." + "/" + rest;
    }
  }

  /** A relative path is accepted exactly if walking it stays inside the project and ends below its root. */
  lemma AcceptedStaysInside(relative: string)
    ensures CleanProjectRelative(relative).Some? <==>
            !Absolute(relative) && Walk([], Split(relative)).Some? && Walk([], Split(relative)).value != []
    ensures CleanProjectRelative(relative).Some? ==>
              var end := Walk([], Split(relative)).value;
              AllOrdinary(end) && CleanProjectRelative(relative).value == Join(end)
              && Split(CleanProjectRelative(relative).value) == end
  {
    if !Absolute(relative) {
      SplitIsPlain(relative);
      ReduceWalks([], Split(relative));
      ReducePlain([], Split(relative), false);
      var parts := Reduce([], Split(relative), false);
      if parts != [] {
        SplitJoin(parts);
        SplitPlain(".", "");
        BeginsWithDotDot(parts);
      }
    }
  }

  // ---------------------------------------------------------------------------------------------
  // Cleaning twice, and overlap
  // ---------------------------------------------------------------------------------------------

  lemma {:induction false} WalkOrdinary(at: seq<string>, parts: seq<string>)
    requires AllOrdinary(parts)
    ensures Walk(at, parts) == Some(at + parts)
    decreases |parts|
  {
    if parts != [] {
      WalkOrdinary(at + [parts[0]], parts[1..]);
      assert at + [parts[0]] + parts[1..] == at + parts;
    } else {
      assert at + parts == at;
    }
  }

  lemma JoinIsRelative(parts: seq<string>)
    requires parts != [] && AllOrdinary(parts)
    ensures !Absolute(Join(parts))
  {
    assert Ordinary(parts[0]) && Join(parts)[0] == parts[0][0];
  }

  /** Cleaning what was accepted changes nothing. */
  lemma CleanIsIdempotent(relative: string)
    requires CleanProjectRelative(relative).Some?
    ensures var clean := CleanProjectRelative(relative).value;
            Clean(clean) == clean && CleanProjectRelative(clean) == Some(clean)
  {
    AcceptedStaysInside(relative);
    var clean := CleanProjectRelative(relative).value;
    var parts := Split(clean);
    JoinIsRelative(parts);
    WalkOrdinary([], parts);
    ReduceWalks([], parts);
    AcceptedStaysInside(clean);
    assert [] + parts == parts;
  }

  lemma {:induction false} JoinExtends(a: seq<string>, b: seq<string>)
    requires a != [] && b != []
    ensures Join(a + b) == Join(a) + "/" + Join(b)
  {
    if |a| > 1 {
      JoinExtends(a[1..], b);
      assert (a + b)[1..] == a[1..] + b;
    } else {
      assert (a + b)[1..] == b;
    }
  }

  /** A joined path is a string prefix up to a separator exactly if its components are a prefix. */
  lemma {:induction false} PrefixOfJoin(a: seq<string>, b: seq<string>)
    requires a != [] && b != [] && AllPlain(a) && AllPlain(b)
    ensures HasPrefix(Join(b), Join(a) + "/") <==> a <= b && a != b
  {
    if a <= b && a != b {
      assert b == a + b[|a|..];
      JoinExtends(a, b[|a|..]);
    }
    if HasPrefix(Join(b), Join(a) + "/") {
      var rest := Join(b)[|Join(a)| + 1..];
      assert Join(b) == Join(a) + "/" + rest;
      SplitIsPlain(rest);
      SplitJoin(Split(rest));
      JoinSplit(rest);
      JoinExtends(a, Split(rest));
      SplitJoin(a + Split(rest));
      SplitJoin(b);
    }
  }

  lemma {:induction false} JoinSplit(s: string)
    ensures Join(Split(s)) == s
  {
    if s != "" {
      JoinSplit(s[1..]);
      var rest := Split(s[1..]);
      if s[0] != '/' && |rest| > 1 {
        assert Split(s)[1..] == rest[1..];
      } else if s[0] == '/' {
        assert Split(s)[1..] == rest;
      }
    }
  }

  predicate PrefixRelated(a: seq<string>, b: seq<string>) {
    a <= b || b <= a
  }

  /** Two accepted paths overlap exactly if one leads to the other, component by component. */
  lemma OverlapIsPrefix(left: string, right: string)
    requires CleanProjectRelative(left).Some? && CleanProjectRelative(right).Some?
    ensures Walk([], Split(left)).Some? && Walk([], Split(right)).Some?
    ensures PathOverlaps(left, right) <==>
            PrefixRelated(Walk([], Split(left)).value, Walk([], Split(right)).value)
  {
    AcceptedStaysInside(left);
    AcceptedStaysInside(right);
    var a, b := Walk([], Split(left)).value, Walk([], Split(right)).value;
    PrefixOfJoin(a, b);
    PrefixOfJoin(b, a);
    SplitJoin(a);
    SplitJoin(b);
  }

  // ---------------------------------------------------------------------------------------------
  // Paths in the tree
  // ---------------------------------------------------------------------------------------------

  function Named(parts: seq<string>): Path {
    seq(|parts|, i requires 0 <= i < |parts| => Name(parts[i]))
  }

  /** The place in the project that a relative path names, if it is accepted. */
  function Locate(relative: string): Option<Path> {
    match CleanProjectRelative(relative)
    case None => None
    case Some(clean) => Some(Named(Split(clean)))
  }

  lemma LocatedInProject(relative: string)
    requires Locate(relative).Some?
    ensures Locate(relative).value != [] && Locate(relative).value[0].Name?
  {
  }

  /** So overlap of strings is overlap of places. */
  lemma OverlapOfPlaces(left: string, right: string)
    requires Locate(left).Some? && Locate(right).Some?
    ensures PathOverlaps(left, right) <==>
            Locate(left).value <= Locate(right).value || Locate(right).value <= Locate(left).value
  {
    OverlapIsPrefix(left, right);
    AcceptedStaysInside(left);
    AcceptedStaysInside(right);
    var a, b := Walk([], Split(left)).value, Walk([], Split(right)).value;
    NamedKeepsPrefix(a, b);
    NamedKeepsPrefix(b, a);
  }

  lemma NamedKeepsPrefix(a: seq<string>, b: seq<string>)
    ensures a <= b <==> Named(a) <= Named(b)
  {
    if a <= b {
      assert b[..|a|] == a;
      assert forall i :: 0 <= i < |a| ==> Named(a)[i] == Named(b)[i];
    }
    if Named(a) <= Named(b) {
      forall i | 0 <= i < |a|
        ensures a[i] == b[i]
      {
        assert Named(a)[i] == Named(b)[i];
      }
    }
  }
}
