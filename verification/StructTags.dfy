/**
 Struct tags as a generator writes them: `key:"value"` pairs set apart by spaces. The value of the gorm key
 may contain quotes that were not escaped; the repair escapes them.

 Whether a quote is escaped is judged by counting the backslashes before it. `InEscape` is the other way to
 say it: read from the left, a backslash that is not itself escaped escapes what follows.
 */
module StructTags {
  import opened Wrappers

  /** What strconv.Unquote accepts, and which keys reflect finds in a tag, are given. */
  datatype Env = Env(unquotes: string -> bool, finds: (string, string) -> bool)

  // ---------------------------------------------------------------------------------------------
  // Escaping
  // ---------------------------------------------------------------------------------------------

  /** How many backslashes stand right before `n`. */
  function Backslashes(s: string, n: nat): nat
    requires n <= |s|
  {
    if n > 0 && s[n - 1] == '\\' then 1 + Backslashes(s, n - 1) else 0
  }

  predicate EscapedAt(s: string, n: nat)
    requires n <= |s|
  {
    Backslashes(s, n) % 2 == 1
  }

  predicate InEscape(s: string, n: nat)
    requires n <= |s|
  {
    n > 0 && s[n - 1] == '\\' && !InEscape(s, n - 1)
  }

  /** Counting backslashes back and reading from the left agree. */
  lemma {:induction false} ParityIsReading(s: string, n: nat)
    requires n <= |s|
    ensures EscapedAt(s, n) == InEscape(s, n)
  {
    if n > 0 {
      ParityIsReading(s, n - 1);
    }
  }

  lemma {:induction false} ReadingIsLocal(s: string, t: string, n: nat)
    requires n <= |s| && n <= |t| && s[..n] == t[..n]
    ensures InEscape(s, n) == InEscape(t, n)
  {
    if n > 0 {
      assert s[..n][n - 1] == t[..n][n - 1];
      assert s[..n - 1] == s[..n][..n - 1] && t[..n - 1] == t[..n][..n - 1];
      ReadingIsLocal(s, t, n - 1);
    }
  }

  /** After something that is not a backslash, reading starts afresh. */
  lemma {:induction false} ReadingStartsAfresh(before: string, s: string, n: nat)
    requires n <= |s| && before != [] && before[|before| - 1] != '\\'
    ensures InEscape(before + s, |before| + n) == InEscape(s, n)
  {
    if n > 0 {
      ReadingStartsAfresh(before, s, n - 1);
    }
  }

  // ---------------------------------------------------------------------------------------------
  // The validator
  // ---------------------------------------------------------------------------------------------

  function TrimLeft(s: string): (r: string)
    ensures |r| <= |s| && r == s[|s| - |r|..]
  {
    if s != "" && s[0] == ' ' then TrimLeft(s[1..]) else s
  }

  function Colon(s: string): (c: nat)
    ensures c <= |s|
  {
    if s == "" then 0 else if s[0] == ':' then 0 else 1 + Colon(s[1..])
  }

  predicate KeyChar(c: char) {
    c > ' ' && c != '"' && c != ':' && c != '\U{7f}'
  }

  predicate ValidKey(key: string) {
    forall i :: 0 <= i < |key| ==> KeyChar(key[i])
  }

  /** The first quote from `n` on that is not escaped; the length when there is none. */
  function Scan(quoted: string, n: nat): (e: nat)
    requires n <= |quoted|
    ensures n <= e <= |quoted|
    ensures forall i :: n <= i < e ==> quoted[i] != '"' || EscapedAt(quoted, i)
    ensures e < |quoted| ==> quoted[e] == '"' && !EscapedAt(quoted, e)
    decreases |quoted| - n
  {
    if n == |quoted| || (quoted[n] == '"' && !EscapedAt(quoted, n)) then n else Scan(quoted, n + 1)
  }

  /** What is left after the pair at the front of `s`; `None` when that pair is refused. */
  function AfterPair(env: Env, tag: string, s: string): (rest: Option<string>)
    ensures rest.Some? ==> |rest.value| < |s|
  {
    var colon := Colon(s);
    if colon == 0 || colon + 1 >= |s| || s[colon + 1] != '"' || !ValidKey(s[..colon]) then None
    else
      var quoted := s[colon + 1..];
      var end := Scan(quoted, 1);
      if end == |quoted| || !env.unquotes(quoted[..end + 1]) || !env.finds(tag, s[..colon]) then None
      else
        var rest := quoted[end + 1..];
        if rest != "" && rest[0] != ' ' then None else Some(rest)
  }

  predicate ValidFrom(env: Env, tag: string, remaining: string)
    decreases |remaining|
  {
    var s := TrimLeft(remaining);
    s == "" || (AfterPair(env, tag, s).Some? && ValidFrom(env, tag, AfterPair(env, tag, s).value))
  }

  predicate Valid(env: Env, tag: string) {
    ValidFrom(env, tag, tag)
  }

  predicate ValidBoundary(env: Env, remainder: string) {
    remainder == "" || (remainder[0] == ' ' && (TrimLeft(remainder) == "" || Valid(env, TrimLeft(remainder))))
  }

  // ---------------------------------------------------------------------------------------------
  // The repair
  // ---------------------------------------------------------------------------------------------

  const PREFIX: string := "gorm:\""

  predicate PrefixAt(tag: string, i: nat) {
    i + |PREFIX| <= |tag| && tag[i..i + |PREFIX|] == PREFIX
  }

  /** Where the gorm key starts, if it does. */
  function FindPrefix(tag: string, from: nat): (r: Option<nat>)
    requires from <= |tag|
    ensures r.Some? ==> from <= r.value && PrefixAt(tag, r.value) && forall i :: from <= i < r.value ==> !PrefixAt(tag, i)
    ensures r.None? ==> forall i :: from <= i <= |tag| ==> !PrefixAt(tag, i)
    decreases |tag| - from
  {
    if PrefixAt(tag, from) then Some(from) else if from == |tag| then None else FindPrefix(tag, from + 1)
  }

  /** A quote that is not escaped, and what follows it can follow a value. */
  predicate Closes(env: Env, tag: string, i: nat)
    requires i < |tag|
  {
    tag[i] == '"' && !EscapedAt(tag, i) && ValidBoundary(env, tag[i + 1..])
  }

  function ClosingQuote(env: Env, tag: string, from: nat): (r: Option<nat>)
    requires from <= |tag|
    ensures r.Some? ==> from <= r.value < |tag| && Closes(env, tag, r.value) && forall i :: from <= i < r.value ==> !Closes(env, tag, i)
    ensures r.None? ==> forall i :: from <= i < |tag| ==> !Closes(env, tag, i)
    decreases |tag| - from
  {
    if from == |tag| then None else if Closes(env, tag, from) then Some(from) else ClosingQuote(env, tag, from + 1)
  }

  predicate Bare(value: string, i: nat)
    requires i < |value|
  {
    value[i] == '"' && !EscapedAt(value, i)
  }

  /** The first `n` characters, with a backslash put before each bare quote. */
  function Escape(value: string, n: nat): string
    requires n <= |value|
  {
    if n == 0 then ""
    else Escape(value, n - 1) + (if Bare(value, n - 1) then "\\" else "") + [value[n - 1]]
  }

  predicate AnyBare(value: string, n: nat)
    requires n <= |value|
  {
    exists i :: 0 <= i < n && Bare(value, i)
  }

  /** A tag taken apart: up to the opening quote of the gorm value, the value, and from its closing quote on. */
  datatype Place = NoKey | Unclosed | Found(before: string, value: string, rest: string)

  function Find(env: Env, tag: string): Place {
    match FindPrefix(tag, 0)
    case None => NoKey
    case Some(start) =>
      if start > 0 && tag[start - 1] != ' ' then NoKey
      else
        var from := start + |PREFIX|;
        match ClosingQuote(env, tag, from)
        case None => Unclosed
        case Some(end) => Found(tag[..from], tag[from..end], tag[end..])
  }

  datatype Repair = Unchanged | Changed(tag: string) | NoClosingQuote

  function Sanitize(env: Env, tag: string): Repair {
    match Find(env, tag)
    case NoKey => Unchanged
    case Unclosed => NoClosingQuote
    case Found(before, value, rest) =>
      if AnyBare(value, |value|) then Changed(before + (Escape(value, |value|) + rest)) else Unchanged
  }

  // ---------------------------------------------------------------------------------------------
  // What escaping does
  // ---------------------------------------------------------------------------------------------

  /** Nothing in `s` would end a quoted value. */
  ghost predicate NoneBare(s: string) {
    forall i :: 0 <= i < |s| ==> !Bare(s, i)
  }

  lemma NoneBareMore(s: string, c: char)
    requires NoneBare(s) && (c == '"' ==> InEscape(s, |s|))
    ensures NoneBare(s + [c])
    ensures InEscape(s + [c], |s| + 1) == (c == '\\' && !InEscape(s, |s|))
  {
    ReadingIsLocal(s, s + [c], |s|);
    forall i | 0 <= i < |s + [c]|
      ensures !Bare(s + [c], i)
    {
      ParityIsReading(s + [c], i);
      if i < |s| {
        assert !Bare(s, i);
        ParityIsReading(s, i);
        ReadingIsLocal(s, s + [c], i);
      }
    }
  }

  /** No bare quote is left, and what follows is read as before. */
  lemma {:induction false} EscapeLeavesNoneBare(value: string, n: nat)
    requires n <= |value|
    ensures NoneBare(Escape(value, n))
    ensures InEscape(Escape(value, n), |Escape(value, n)|) == InEscape(value, n)
  {
    if n > 0 {
      EscapeLeavesNoneBare(value, n - 1);
      ParityIsReading(value, n - 1);
      var before, c := Escape(value, n - 1), value[n - 1];
      if Bare(value, n - 1) {
        NoneBareMore(before, '\\');
        NoneBareMore(before + "\\", c);
        assert Escape(value, n) == before + "\\" + [c];
      } else {
        NoneBareMore(before, c);
        assert Escape(value, n) == before + [c];
      }
    }
  }

  /** Where nothing is bare, nothing changes. */
  lemma {:induction false} EscapeOfNoneBare(value: string, n: nat)
    requires n <= |value| && !AnyBare(value, n)
    ensures Escape(value, n) == value[..n]
  {
    if n > 0 {
      assert !Bare(value, n - 1);
      EscapeOfNoneBare(value, n - 1);
    }
  }

  // ---------------------------------------------------------------------------------------------
  // What a value says
  // ---------------------------------------------------------------------------------------------

  /** A character by itself, or one that a backslash escapes. */
  datatype Sign = Plain(c: char) | Escaped(c: char)

  /** The signs in the first `n` characters; a backslash stands by itself until it is seen what follows. */
  function Signs(s: string, n: nat): (signs: seq<Sign>)
    requires n <= |s|
    ensures InEscape(s, n) ==> signs != []
  {
    if n == 0 then []
    else
      var before := Signs(s, n - 1);
      if InEscape(s, n - 1) then before[..|before| - 1] + [Escaped(s[n - 1])] else before + [Plain(s[n - 1])]
  }

  /** A bare quote and an escaped one both stand for a quote. */
  function QuoteEscaped(signs: seq<Sign>): (r: seq<Sign>)
    ensures |r| == |signs|
  {
    if signs == [] then []
    else QuoteEscaped(signs[..|signs| - 1]) + [if signs[|signs| - 1] == Plain('"') then Escaped('"') else signs[|signs| - 1]]
  }

  lemma QuoteEscapedMore(signs: seq<Sign>, sign: Sign)
    ensures QuoteEscaped(signs + [sign]) == QuoteEscaped(signs) + [if sign == Plain('"') then Escaped('"') else sign]
  {
    assert (signs + [sign])[..|signs + [sign]| - 1] == signs;
  }

  lemma {:induction false} SignsAreLocal(s: string, t: string, n: nat)
    requires n <= |s| && n <= |t| && s[..n] == t[..n]
    ensures Signs(s, n) == Signs(t, n)
  {
    if n > 0 {
      assert s[..n][n - 1] == t[..n][n - 1];
      assert s[..n - 1] == s[..n][..n - 1] && t[..n - 1] == t[..n][..n - 1];
      SignsAreLocal(s, t, n - 1);
      ReadingIsLocal(s, t, n - 1);
    }
  }

  lemma SignsMore(s: string, c: char)
    ensures var before := Signs(s, |s|);
            Signs(s + [c], |s| + 1) == if InEscape(s, |s|) then before[..|before| - 1] + [Escaped(c)] else before + [Plain(c)]
  {
    SignsAreLocal(s, s + [c], |s|);
    ReadingIsLocal(s, s + [c], |s|);
  }

  lemma BareSigns(escaped: string, next: string, signs: seq<Sign>)
    requires Signs(escaped, |escaped|) == QuoteEscaped(signs) && !InEscape(escaped, |escaped|)
    requires next == escaped + "\\" + "\""
    ensures Signs(next, |next|) == QuoteEscaped(signs + [Plain('"')])
  {
    SignsMore(escaped, '\\');
    ReadingIsLocal(escaped, escaped + "\\", |escaped|);
    SignsMore(escaped + "\\", '"');
    QuoteEscapedMore(signs, Plain('"'));
    var all := QuoteEscaped(signs);
    assert (all + [Plain('\\')])[..|all + [Plain('\\')]| - 1] == all;
  }

  lemma OtherSigns(escaped: string, next: string, signs: seq<Sign>, c: char)
    requires Signs(escaped, |escaped|) == QuoteEscaped(signs) && (c == '"' ==> InEscape(escaped, |escaped|))
    requires InEscape(escaped, |escaped|) ==> signs != []
    requires next == escaped + [c]
    ensures Signs(next, |next|)
            == QuoteEscaped(if InEscape(escaped, |escaped|) then signs[..|signs| - 1] + [Escaped(c)] else signs + [Plain(c)])
  {
    SignsMore(escaped, c);
    if InEscape(escaped, |escaped|) {
      var front := signs[..|signs| - 1];
      QuoteEscapedMore(front, Escaped(c));
      assert QuoteEscaped(signs)[..|signs| - 1] == QuoteEscaped(front);
    } else {
      QuoteEscapedMore(signs, Plain(c));
    }
  }

  lemma EscapeMore(value: string, n: nat)
    requires 0 < n <= |value|
    ensures Bare(value, n - 1) ==> Escape(value, n) == Escape(value, n - 1) + "\\" + "\""
    ensures !Bare(value, n - 1) ==> Escape(value, n) == Escape(value, n - 1) + [value[n - 1]]
  {
  }

  /** Escaping changes what no sign says: bare quotes are escaped, and the rest is read as it was. */
  lemma {:induction false} EscapeKeepsTheSigns(value: string, n: nat)
    requires n <= |value|
    ensures Signs(Escape(value, n), |Escape(value, n)|) == QuoteEscaped(Signs(value, n))
  {
    if n > 0 {
      EscapeKeepsTheSigns(value, n - 1);
      EscapeLeavesNoneBare(value, n - 1);
      ParityIsReading(value, n - 1);
      EscapeMore(value, n);
      SignsStep(value, n);
      if Bare(value, n - 1) {
        BareSigns(Escape(value, n - 1), Escape(value, n), Signs(value, n - 1));
      } else {
        OtherSigns(Escape(value, n - 1), Escape(value, n), Signs(value, n - 1), value[n - 1]);
      }
    }
  }

  lemma SignsStep(s: string, n: nat)
    requires 0 < n <= |s|
    ensures var before := Signs(s, n - 1);
            Signs(s, n) == if InEscape(s, n - 1) then before[..|before| - 1] + [Escaped(s[n - 1])] else before + [Plain(s[n - 1])]
  {
  }

  // ---------------------------------------------------------------------------------------------
  // What the repair leaves
  // ---------------------------------------------------------------------------------------------

  /** The gorm key at the end of `before`, where the tag has it first, and the value in quotes after it. */
  ghost predicate Tagged(env: Env, before: string, value: string, rest: string) {
    && |PREFIX| <= |before| && before[|before| - 1] == '"'
    && FindPrefix(before, 0) == Some(|before| - |PREFIX|) && (|PREFIX| < |before| ==> before[|before| - |PREFIX| - 1] == ' ')
    && rest != "" && rest[0] == '"' && ValidBoundary(env, rest[1..])
  }

  /** Reading from the start of the value is reading the value by itself. */
  lemma ReadingTheValue(before: string, value: string, rest: string, k: nat)
    requires before != "" && before[|before| - 1] == '"' && k <= |value|
    ensures InEscape(before + (value + rest), |before| + k) == InEscape(value, k)
    ensures EscapedAt(before + (value + rest), |before| + k) == InEscape(value, k)
  {
    ReadingStartsAfresh(before, value + rest, k);
    ReadingIsLocal(value + rest, value, k);
    ParityIsReading(before + (value + rest), |before| + k);
  }

  lemma NotBareThere(before: string, value: string, rest: string, k: nat)
    requires before != "" && before[|before| - 1] == '"' && NoneBare(value) && k < |value|
    ensures (before + (value + rest))[|before| + k] == value[k] && !Bare(before + (value + rest), |before| + k)
  {
    ReadingTheValue(before, value, rest, k);
    ParityIsReading(value, k);
    assert !Bare(value, k);
  }

  lemma NoneBefore(before: string, value: string, rest: string, i: nat)
    requires before != "" && before[|before| - 1] == '"' && NoneBare(value) && |before| <= i < |before| + |value|
    ensures !Bare(before + (value + rest), i)
  {
    NotBareThere(before, value, rest, i - |before|);
  }

  lemma FirstScan(quoted: string, n: nat, e: nat)
    requires n <= e < |quoted| && Bare(quoted, e) && forall i :: n <= i < e ==> !Bare(quoted, i)
    ensures Scan(quoted, n) == e
    decreases e - n
  {
    if n < e {
      assert !Bare(quoted, n);
      FirstScan(quoted, n + 1, e);
    }
  }

  /** Scanning from the start of a value without bare quotes comes to the quote after it. */
  lemma ScanComesToTheQuote(before: string, value: string, rest: string)
    requires before != "" && before[|before| - 1] == '"' && NoneBare(value) && !InEscape(value, |value|)
    requires rest != "" && rest[0] == '"'
    ensures Scan(before + (value + rest), |before|) == |before| + |value|
  {
    var s, e := before + (value + rest), |before| + |value|;
    QuoteIsBare(before, value, rest);
    forall i | |before| <= i < e
      ensures !Bare(s, i)
    {
      NoneBefore(before, value, rest, i);
    }
    FirstScan(s, |before|, e);
  }

  lemma QuoteIsBare(before: string, value: string, rest: string)
    requires before != "" && before[|before| - 1] == '"' && !InEscape(value, |value|) && rest != "" && rest[0] == '"'
    ensures Bare(before + (value + rest), |before| + |value|)
  {
    ReadingTheValue(before, value, rest, |value|);
  }

  lemma QuotedValue(before: string, value: string, rest: string)
    requires before != "" && before[|before| - 1] == '"'
    ensures (before + (value + rest))[|before| - 1..] == "\"" + (value + rest)
  {
  }

  lemma AfterTheQuote(before: string, value: string, rest: string)
    requires rest != ""
    ensures (before + (value + rest))[|before| + |value| + 1..] == rest[1..]
  {
  }

  lemma FirstClosing(env: Env, tag: string, from: nat, end: nat)
    requires from <= end < |tag| && Closes(env, tag, end)
    requires forall i :: from <= i < end ==> !Bare(tag, i)
    ensures ClosingQuote(env, tag, from) == Some(end)
  {
    var r := ClosingQuote(env, tag, from);
    assert r.Some? && Bare(tag, r.value);
  }

  lemma QuoteCloses(env: Env, before: string, value: string, rest: string)
    requires before != "" && before[|before| - 1] == '"' && !InEscape(value, |value|)
    requires rest != "" && rest[0] == '"' && ValidBoundary(env, rest[1..])
    ensures Closes(env, before + (value + rest), |before| + |value|)
  {
    ReadingTheValue(before, value, rest, |value|);
    AfterTheQuote(before, value, rest);
  }

  lemma ValueCloses(env: Env, before: string, value: string, rest: string)
    requires Tagged(env, before, value, rest) && NoneBare(value) && !InEscape(value, |value|)
    ensures ClosingQuote(env, before + (value + rest), |before|) == Some(|before| + |value|)
  {
    var tag := before + (value + rest);
    QuoteCloses(env, before, value, rest);
    forall i | |before| <= i < |before| + |value|
      ensures !Bare(tag, i)
    {
      NoneBefore(before, value, rest, i);
    }
    FirstClosing(env, tag, |before|, |before| + |value|);
  }

  // ---------------------------------------------------------------------------------------------
  // Taking apart and putting together
  // ---------------------------------------------------------------------------------------------

  lemma PrefixAtStays(before: string, more: string, i: nat)
    requires i + |PREFIX| <= |before|
    ensures PrefixAt(before + more, i) <==> PrefixAt(before, i)
  {
    assert (before + more)[i..i + |PREFIX|] == before[i..i + |PREFIX|];
  }

  lemma FirstPrefix(tag: string, start: nat)
    requires PrefixAt(tag, start) && forall i :: 0 <= i < start ==> !PrefixAt(tag, i)
    ensures FindPrefix(tag, 0) == Some(start)
  {
  }

  lemma PrefixStays(before: string, more: string)
    requires |PREFIX| <= |before|
    ensures FindPrefix(before, 0) == Some(|before| - |PREFIX|) <==> FindPrefix(before + more, 0) == Some(|before| - |PREFIX|)
  {
    var start := |before| - |PREFIX|;
    forall i | 0 <= i <= start
      ensures PrefixAt(before + more, i) <==> PrefixAt(before, i)
    {
      PrefixAtStays(before, more, i);
    }
    if PrefixAt(before, start) && forall i :: 0 <= i < start ==> !PrefixAt(before, i) {
      FirstPrefix(before + more, start);
      FirstPrefix(before, start);
    }
  }

  lemma Glued(tag: string, from: nat, end: nat)
    requires from <= end <= |tag|
    ensures tag == tag[..from] + (tag[from..end] + tag[end..])
  {
  }

  lemma Sliced(before: string, value: string, rest: string)
    ensures var s := before + (value + rest);
            && s[..|before|] == before && s[|before|..|before| + |value|] == value && s[|before| + |value|..] == rest
  {
  }

  lemma EndsWithQuote(tag: string, start: nat)
    requires PrefixAt(tag, start)
    ensures tag[start + |PREFIX| - 1] == '"'
  {
    assert tag[start..start + |PREFIX|][|PREFIX| - 1] == '"';
  }

  lemma RestCloses(env: Env, tag: string, end: nat)
    requires end < |tag| && Closes(env, tag, end)
    ensures tag[end..][0] == '"' && ValidBoundary(env, tag[end..][1..]) && !InEscape(tag, end)
  {
    ParityIsReading(tag, end);
    assert tag[end..][1..] == tag[end + 1..];
  }

  lemma BeforeIsTagged(tag: string, start: nat)
    requires FindPrefix(tag, 0) == Some(start)
    ensures start + |PREFIX| <= |tag|
    ensures var before := tag[..start + |PREFIX|];
            before[|before| - 1] == '"' && FindPrefix(before, 0) == Some(start)
  {
    var before, more := tag[..start + |PREFIX|], tag[start + |PREFIX|..];
    EndsWithQuote(tag, start);
    assert before + more == tag;
    PrefixStays(before, more);
  }

  lemma PartsAreTagged(env: Env, tag: string, start: nat, end: nat)
    requires FindPrefix(tag, 0) == Some(start) && (start > 0 ==> tag[start - 1] == ' ')
    requires start + |PREFIX| <= end < |tag| && Closes(env, tag, end)
    ensures Tagged(env, tag[..start + |PREFIX|], tag[start + |PREFIX|..end], tag[end..]) && !InEscape(tag, end)
  {
    BeforeIsTagged(tag, start);
    RestCloses(env, tag, end);
  }

  lemma ValueEndsOutside(tag: string, end: nat, before: string, value: string, rest: string)
    requires tag == before + (value + rest) && end == |before| + |value| && !InEscape(tag, end)
    requires before != "" && before[|before| - 1] == '"'
    ensures !InEscape(value, |value|)
  {
    ReadingTheValue(before, value, rest, |value|);
  }

  /** Where the parts found are. */
  lemma FoundAt(env: Env, tag: string, before: string, value: string, rest: string) returns (start: nat, from: nat, end: nat)
    requires Find(env, tag) == Found(before, value, rest)
    ensures FindPrefix(tag, 0) == Some(start) && (start > 0 ==> tag[start - 1] == ' ') && from == start + |PREFIX|
    ensures from <= end < |tag| && Closes(env, tag, end)
    ensures before == tag[..from] && value == tag[from..end] && rest == tag[end..] && end == |before| + |value|
  {
    start := FindPrefix(tag, 0).value;
    from := start + |PREFIX|;
    end := ClosingQuote(env, tag, from).value;
  }

  /** What is found makes up the tag, and is tagged. */
  lemma FoundIsTagged(env: Env, tag: string, before: string, value: string, rest: string)
    requires Find(env, tag) == Found(before, value, rest)
    ensures tag == before + (value + rest) && Tagged(env, before, value, rest) && !InEscape(value, |value|)
  {
    var start, from, end := FoundAt(env, tag, before, value, rest);
    PartsAreTagged(env, tag, start, end);
    Glued(tag, from, end);
    ValueEndsOutside(tag, end, before, value, rest);
  }

  /** Whatever is tagged and closed is found. */
  lemma TaggedIsFound(env: Env, before: string, value: string, rest: string)
    requires Tagged(env, before, value, rest)
    requires ClosingQuote(env, before + (value + rest), |before|) == Some(|before| + |value|)
    ensures Find(env, before + (value + rest)) == Found(before, value, rest)
  {
    PrefixStays(before, value + rest);
    Sliced(before, value, rest);
    FindIs(env, before + (value + rest), |before|, |before| + |value|);
  }

  lemma FindIs(env: Env, tag: string, from: nat, end: nat)
    requires |PREFIX| <= from <= |tag| && FindPrefix(tag, 0) == Some(from - |PREFIX|)
    requires (|PREFIX| < from ==> tag[from - |PREFIX| - 1] == ' ') && ClosingQuote(env, tag, from) == Some(end)
    ensures Find(env, tag) == Found(tag[..from], tag[from..end], tag[end..])
  {
    var start := from - |PREFIX|;
    assert FindPrefix(tag, 0) == Some(start) && start + |PREFIX| == from;
    assert !(start > 0 && tag[start - 1] != ' ');
  }

  // ---------------------------------------------------------------------------------------------
  // The repair as a whole
  // ---------------------------------------------------------------------------------------------

  /**
   The repair touches the value only: the repaired tag is found to have the same text before its value and
   from its closing quote on, and a value without bare quotes that says what the old one said.
   */
  lemma RepairTouchesOnlyTheValue(env: Env, tag: string)
    requires Sanitize(env, tag).Changed?
    ensures match Find(env, tag)
            case Found(before, value, rest) =>
              var escaped := Escape(value, |value|);
              && Find(env, Sanitize(env, tag).tag) == Found(before, escaped, rest) && NoneBare(escaped)
              && Signs(escaped, |escaped|) == QuoteEscaped(Signs(value, |value|))
            case _ => false
  {
    var Found(before, value, rest) := Find(env, tag);
    var escaped := Escape(value, |value|);
    FoundIsTagged(env, tag, before, value, rest);
    EscapeLeavesNoneBare(value, |value|);
    EscapeKeepsTheSigns(value, |value|);
    ValueCloses(env, before, escaped, rest);
    TaggedIsFound(env, before, escaped, rest);
  }

  lemma NoneBareIsNotAny(value: string)
    ensures NoneBare(value) <==> !AnyBare(value, |value|)
  {
  }

  /** Repairing again changes nothing. */
  lemma RepairIsIdempotent(env: Env, tag: string)
    requires Sanitize(env, tag).Changed?
    ensures Sanitize(env, Sanitize(env, tag).tag) == Unchanged
  {
    RepairTouchesOnlyTheValue(env, tag);
    var value := Find(env, tag).value;
    NoneBareIsNotAny(Escape(value, |value|));
  }

  /** A tag the repair leaves alone, as every repaired one, ends its gorm value for the validator at the quote that closes it for the repair. */
  lemma ValidatorFindsTheSameQuote(env: Env, tag: string, before: string, value: string, rest: string)
    requires Find(env, tag) == Found(before, value, rest) && Sanitize(env, tag) == Unchanged
    ensures before != "" && Scan(tag[|before| - 1..], 1) == |value| + 1
  {
    FoundIsTagged(env, tag, before, value, rest);
    NoneBareIsNotAny(value);
    ValidatorClosesToo(tag, before, value, rest);
  }

  lemma ValidatorClosesToo(tag: string, before: string, value: string, rest: string)
    requires before != "" && before[|before| - 1] == '"' && NoneBare(value) && !InEscape(value, |value|)
    requires rest != "" && rest[0] == '"' && tag == before + (value + rest)
    ensures Scan(tag[|before| - 1..], 1) == |value| + 1
  {
    QuotedValue(before, value, rest);
    ScanComesToTheQuote("\"", value, rest);
  }

  // ---------------------------------------------------------------------------------------------
  // Which tags are valid
  // ---------------------------------------------------------------------------------------------

  /** A key and its value in quotes, with what sets it apart from the pair before. */
  datatype Pair = Pair(gap: string, key: string, quoted: string)

  ghost predicate Spaces(s: string) {
    forall i :: 0 <= i < |s| ==> s[i] == ' '
  }

  /** In quotes, with no other quote inside that is not escaped. */
  ghost predicate Quoted(q: string) {
    && |q| >= 2 && q[0] == '"' && q[|q| - 1] == '"' && !InEscape(q, |q| - 1)
    && forall i :: 0 < i < |q| - 1 && q[i] == '"' ==> InEscape(q, i)
  }

  /** No control characters or spaces, no quotes, no colons. */
  ghost predicate GoodKey(key: string) {
    forall i :: 0 <= i < |key| ==> ' ' < key[i] && key[i] != '"' && key[i] != ':' && key[i] != '\U{7f}'
  }

  lemma GoodKeysAreValid(key: string)
    ensures ValidKey(key) <==> GoodKey(key)
  {
    if ValidKey(key) {
      forall i | 0 <= i < |key|
        ensures ' ' < key[i] && key[i] != '"' && key[i] != ':' && key[i] != '\U{7f}'
      {
        assert KeyChar(key[i]);
      }
    }
  }

  ghost predicate GoodPair(env: Env, tag: string, pair: Pair) {
    && Spaces(pair.gap) && pair.key != "" && GoodKey(pair.key)
    && Quoted(pair.quoted) && env.unquotes(pair.quoted) && env.finds(tag, pair.key)
  }

  function Spell(pairs: seq<Pair>, trailing: string): string {
    if pairs == [] then trailing
    else pairs[0].gap + (pairs[0].key + (":" + (pairs[0].quoted + Spell(pairs[1..], trailing))))
  }

  /** Good pairs, each set apart from the one before. */
  ghost predicate GoodPairs(env: Env, tag: string, pairs: seq<Pair>) {
    forall i :: 0 <= i < |pairs| ==> GoodPair(env, tag, pairs[i]) && (i > 0 ==> pairs[i].gap != "")
  }

  ghost predicate SpelledBy(env: Env, tag: string, s: string, pairs: seq<Pair>, trailing: string) {
    GoodPairs(env, tag, pairs) && Spaces(trailing) && s == Spell(pairs, trailing)
  }

  lemma {:induction false} TrimmedAreSpaces(s: string, i: nat)
    requires i < |s| - |TrimLeft(s)|
    ensures s[i] == ' '
  {
    if i > 0 {
      TrimmedAreSpaces(s[1..], i - 1);
    }
  }

  lemma {:induction false} TrimStops(s: string)
    requires TrimLeft(s) != ""
    ensures TrimLeft(s)[0] != ' '
  {
    if s[0] == ' ' {
      TrimStops(s[1..]);
    }
  }

  lemma TrimLeftIs(s: string) returns (gap: string)
    ensures s == gap + TrimLeft(s) && Spaces(gap) && (TrimLeft(s) != "" ==> TrimLeft(s)[0] != ' ')
  {
    var n := |s| - |TrimLeft(s)|;
    gap := s[..n];
    Halves(s, n);
    FrontIsSpaces(s, n);
    if TrimLeft(s) != "" {
      TrimStops(s);
    }
  }

  lemma Halves(s: string, n: nat)
    requires n <= |s|
    ensures s == s[..n] + s[n..]
  {
  }

  lemma FrontIsSpaces(s: string, n: nat)
    requires n == |s| - |TrimLeft(s)|
    ensures Spaces(s[..n])
  {
    forall i | 0 <= i < n
      ensures s[..n][i] == ' '
    {
      TrimmedAreSpaces(s, i);
    }
  }

  lemma {:induction false} TrimmingTakesTheGap(gap: string, s: string)
    requires Spaces(gap) && (s != "" ==> s[0] != ' ')
    ensures TrimLeft(gap + s) == s
  {
    if gap != "" {
      assert (gap + s)[1..] == gap[1..] + s;
      TrimmingTakesTheGap(gap[1..], s);
    } else {
      assert gap + s == s;
    }
  }

  lemma {:induction false} ColonIs(key: string, more: string)
    requires ValidKey(key)
    ensures Colon(key + (":" + more)) == |key|
  {
    var s := key + (":" + more);
    if key != "" {
      assert s[1..] == key[1..] + (":" + more);
      assert KeyChar(key[0]);
      ColonIs(key[1..], more);
    }
  }

  lemma {:induction false} NoColonBefore(s: string, i: nat)
    requires i < Colon(s)
    ensures s[i] != ':'
  {
    if i > 0 {
      NoColonBefore(s[1..], i - 1);
    }
  }

  lemma {:induction false} ColonIsOne(s: string)
    ensures Colon(s) < |s| ==> s[Colon(s)] == ':'
  {
    if s != "" && s[0] != ':' {
      ColonIsOne(s[1..]);
    }
  }

  /** What is read inside the quotes does not depend on what follows. */
  lemma SameEscapes(q: string, more: string, i: nat)
    requires i <= |q|
    ensures EscapedAt(q + more, i) == InEscape(q, i)
  {
    assert (q + more)[..i] == q[..i];
    ReadingIsLocal(q + more, q, i);
    ParityIsReading(q + more, i);
  }

  lemma ScanFindsTheEnd(q: string, more: string)
    requires Quoted(q)
    ensures Scan(q + more, 1) == |q| - 1
  {
    var s, e := q + more, |q| - 1;
    SameEscapes(q, more, e);
    assert Bare(s, e);
    forall i | 1 <= i < e
      ensures !Bare(s, i)
    {
      SameEscapes(q, more, i);
    }
    FirstScan(s, 1, e);
  }

  lemma ScannedIsQuoted(s: string)
    requires |s| >= 1 && s[0] == '"' && Scan(s, 1) < |s|
    ensures Quoted(s[..Scan(s, 1) + 1])
  {
    var e := Scan(s, 1);
    var q, more := s[..e + 1], s[e + 1..];
    assert s == q + more;
    forall i | 0 < i <= e
      ensures EscapedAt(s, i) == InEscape(q, i)
    {
      SameEscapes(q, more, i);
    }
  }

  /** The pair at the front is accepted exactly if it is a good one, followed by a space or by nothing. */
  lemma PairAtFront(env: Env, tag: string, pair: Pair, rest: string)
    requires GoodPair(env, tag, pair) && (rest != "" ==> rest[0] == ' ')
    ensures AfterPair(env, tag, pair.key + (":" + (pair.quoted + rest))) == Some(rest)
  {
    var s := pair.key + (":" + (pair.quoted + rest));
    GoodKeysAreValid(pair.key);
    ColonIs(pair.key, pair.quoted + rest);
    assert s[..|pair.key|] == pair.key && s[|pair.key| + 1..] == pair.quoted + rest;
    assert s[|pair.key| + 1] == pair.quoted[0];
    ScanFindsTheEnd(pair.quoted, rest);
    assert (pair.quoted + rest)[..|pair.quoted|] == pair.quoted && (pair.quoted + rest)[|pair.quoted|..] == rest;
  }

  /** Where the pair at the front ends its key and its value. */
  ghost predicate FrontAt(env: Env, tag: string, s: string, colon: nat, end: nat) {
    && 0 < colon && colon + 1 < |s| && s[colon] == ':' && s[colon + 1] == '"' && ValidKey(s[..colon])
    && end == Scan(s[colon + 1..], 1) < |s| - colon - 1
    && env.unquotes(s[colon + 1..][..end + 1]) && env.finds(tag, s[..colon])
  }

  lemma AcceptedFront(env: Env, tag: string, s: string) returns (colon: nat, end: nat)
    requires AfterPair(env, tag, s).Some?
    ensures FrontAt(env, tag, s, colon, end)
    ensures var rest := s[colon + 1..][end + 1..]; AfterPair(env, tag, s) == Some(rest) && (rest != "" ==> rest[0] == ' ')
  {
    colon := Colon(s);
    ColonIsOne(s);
    end := Scan(s[colon + 1..], 1);
  }

  lemma Cut(s: string, colon: nat, end: nat)
    requires colon + 1 < |s| && s[colon] == ':' && end < |s| - colon - 1
    ensures s == s[..colon] + (":" + (s[colon + 1..][..end + 1] + s[colon + 1..][end + 1..]))
  {
    var quoted := s[colon + 1..];
    assert quoted == quoted[..end + 1] + quoted[end + 1..];
    assert s == s[..colon] + (":" + quoted);
  }

  lemma FrontIsGood(env: Env, tag: string, s: string, colon: nat, end: nat)
    requires FrontAt(env, tag, s, colon, end)
    ensures GoodPair(env, tag, Pair("", s[..colon], s[colon + 1..][..end + 1]))
  {
    GoodKeysAreValid(s[..colon]);
    ScannedIsQuoted(s[colon + 1..]);
  }

  lemma FrontIsAPair(env: Env, tag: string, s: string) returns (pair: Pair)
    requires AfterPair(env, tag, s).Some?
    ensures pair.gap == "" && GoodPair(env, tag, pair)
    ensures var rest := AfterPair(env, tag, s).value;
            s == pair.key + (":" + (pair.quoted + rest)) && (rest != "" ==> rest[0] == ' ')
  {
    var colon, end := AcceptedFront(env, tag, s);
    FrontIsGood(env, tag, s, colon, end);
    Cut(s, colon, end);
    pair := Pair("", s[..colon], s[colon + 1..][..end + 1]);
  }

  lemma {:induction false} SpelledIsValid(env: Env, tag: string, s: string, pairs: seq<Pair>, trailing: string)
    requires SpelledBy(env, tag, s, pairs, trailing)
    ensures ValidFrom(env, tag, s)
    decreases |pairs|
  {
    if pairs == [] {
      TrimmingTakesTheGap(trailing, "");
      assert trailing + "" == trailing;
    } else {
      var pair, rest := pairs[0], Spell(pairs[1..], trailing);
      assert GoodPair(env, tag, pair) && pair.key[0] != ' ';
      TrimmingTakesTheGap(pair.gap, pair.key + (":" + (pair.quoted + rest)));
      RestIsSetApart(env, tag, pairs, trailing);
      PairAtFront(env, tag, pair, rest);
      SpelledIsValid(env, tag, rest, pairs[1..], trailing);
    }
  }

  lemma RestIsSetApart(env: Env, tag: string, pairs: seq<Pair>, trailing: string)
    requires pairs != [] && GoodPairs(env, tag, pairs) && Spaces(trailing)
    ensures GoodPairs(env, tag, pairs[1..])
    ensures var rest := Spell(pairs[1..], trailing); rest != "" ==> rest[0] == ' '
  {
    if |pairs| > 1 {
      assert GoodPair(env, tag, pairs[1]) && pairs[1].gap != "";
      assert pairs[1..][0] == pairs[1];
    }
  }

  lemma {:induction false} ValidIsSpelled(env: Env, tag: string, s: string) returns (pairs: seq<Pair>, trailing: string)
    requires ValidFrom(env, tag, s)
    ensures SpelledBy(env, tag, s, pairs, trailing)
    decreases |s|
  {
    var gap := TrimLeftIs(s);
    if TrimLeft(s) == "" {
      pairs, trailing := [], gap;
      assert gap + "" == gap;
    } else {
      var rest := AfterPair(env, tag, TrimLeft(s)).value;
      var pair := FrontIsAPair(env, tag, TrimLeft(s));
      var more;
      more, trailing := ValidIsSpelled(env, tag, rest);
      MorePairs(env, tag, pair.(gap := gap), more, trailing);
      pairs := [pair.(gap := gap)] + more;
    }
  }

  /** A pair with no gap begins with its key. */
  lemma KeyComesFirst(pairs: seq<Pair>, trailing: string)
    requires pairs != [] && pairs[0].gap == "" && pairs[0].key != "" && GoodKey(pairs[0].key)
    ensures var s := Spell(pairs, trailing); s != "" && s[0] != ' '
  {
    assert pairs[0].key[0] != ' ';
  }

  lemma MorePairs(env: Env, tag: string, pair: Pair, pairs: seq<Pair>, trailing: string)
    requires GoodPair(env, tag, pair) && GoodPairs(env, tag, pairs)
    requires var s := Spell(pairs, trailing); s != "" ==> s[0] == ' '
    ensures GoodPairs(env, tag, [pair] + pairs)
    ensures Spell([pair] + pairs, trailing) == pair.gap + (pair.key + (":" + (pair.quoted + Spell(pairs, trailing))))
  {
    var all := [pair] + pairs;
    assert all[1..] == pairs;
    forall i | 0 <= i < |all|
      ensures GoodPair(env, tag, all[i]) && (i > 0 ==> all[i].gap != "")
    {
      if i > 0 {
        assert all[i] == pairs[i - 1] && GoodPair(env, tag, pairs[i - 1]);
        if i == 1 && pairs[0].gap == "" {
          KeyComesFirst(pairs, trailing);
        }
      }
    }
  }

  /**
   A tag is valid exactly if it is made of good pairs with spaces between them: every key of allowed characters, every
   value in quotes with no bare quote inside, unquoted by strconv and found by reflect.
   */
  lemma ValidExactlyIfSpelled(env: Env, tag: string)
    ensures Valid(env, tag) <==> exists pairs, trailing :: SpelledBy(env, tag, tag, pairs, trailing)
  {
    if Valid(env, tag) {
      var pairs, trailing := ValidIsSpelled(env, tag, tag);
    }
    if pairs, trailing :| SpelledBy(env, tag, tag, pairs, trailing) {
      SpelledIsValid(env, tag, tag, pairs, trailing);
    }
  }

  /** What can follow a value: nothing, or a gap and then nothing or a valid tag. */
  lemma BoundaryExactlyIf(env: Env, remainder: string)
    ensures ValidBoundary(env, remainder)
            <==> remainder == "" || exists gap, t :: BoundaryOf(env, remainder, gap, t)
  {
    var gap := TrimLeftIs(remainder);
    var t := TrimLeft(remainder);
    if ValidBoundary(env, remainder) && remainder != "" {
      assert BoundaryOf(env, remainder, gap, t);
    }
    if g, u :| BoundaryOf(env, remainder, g, u) {
      TrimmingTakesTheGap(g, u);
      assert remainder[0] == g[0];
    }
  }

  ghost predicate BoundaryOf(env: Env, remainder: string, gap: string, t: string) {
    gap != "" && Spaces(gap) && remainder == gap + t && (t != "" ==> t[0] != ' ' && Valid(env, t))
  }

  // ---------------------------------------------------------------------------------------------
  // When the repair does what
  // ---------------------------------------------------------------------------------------------

  /** The first gorm key of the tag starts there, at the front or after a space. */
  ghost predicate KeyAt(tag: string, start: nat) {
    PrefixAt(tag, start) && (forall i :: 0 <= i < start ==> !PrefixAt(tag, i)) && (start > 0 ==> tag[start - 1] == ' ')
  }

  ghost predicate FirstClose(env: Env, tag: string, from: nat, end: nat) {
    from <= end < |tag| && Closes(env, tag, end) && forall i :: from <= i < end ==> !Closes(env, tag, i)
  }

  lemma KeyIsOne(tag: string, a: nat, b: nat)
    requires KeyAt(tag, a) && KeyAt(tag, b)
    ensures a == b
  {
  }

  ghost predicate Open(env: Env, tag: string, start: nat) {
    KeyAt(tag, start) && forall i :: start + |PREFIX| <= i < |tag| ==> !Closes(env, tag, i)
  }

  ghost predicate BareInside(env: Env, tag: string, start: nat, end: nat) {
    var from := start + |PREFIX|;
    KeyAt(tag, start) && FirstClose(env, tag, from, end) && AnyBare(tag[from..end], end - from)
  }

  /**
   The repair complains exactly if there is a gorm key that no quote closes, and changes the tag exactly if there is
   a bare quote before the first that does.
   */
  lemma RepairExactlyWhen(env: Env, tag: string)
    ensures Sanitize(env, tag) == NoClosingQuote <==> exists start :: Open(env, tag, start)
    ensures Sanitize(env, tag).Changed? <==> exists start, end :: BareInside(env, tag, start, end)
  {
    match FindPrefix(tag, 0)
    case None =>
    case Some(start) =>
      if start == 0 || tag[start - 1] == ' ' {
        KeyFound(env, tag, start);
      } else {
        forall other
          ensures !KeyAt(tag, other)
        {
        }
      }
  }

  lemma KeyFound(env: Env, tag: string, start: nat)
    requires FindPrefix(tag, 0) == Some(start) && (start > 0 ==> tag[start - 1] == ' ')
    ensures Sanitize(env, tag) == NoClosingQuote <==> exists other :: Open(env, tag, other)
    ensures Sanitize(env, tag).Changed? <==> exists other, end :: BareInside(env, tag, other, end)
  {
    assert KeyAt(tag, start);
    OpenThere(env, tag, start);
    if other :| Open(env, tag, other) {
      KeyIsOne(tag, other, start);
    }
    if Sanitize(env, tag).Changed? {
      var end := BareThere(env, tag, start);
    }
    if other, end :| BareInside(env, tag, other, end) {
      KeyIsOne(tag, other, start);
      BareMeansChanged(env, tag, start, end);
    }
  }

  lemma OpenThere(env: Env, tag: string, start: nat)
    requires FindPrefix(tag, 0) == Some(start) && KeyAt(tag, start)
    ensures Sanitize(env, tag) == NoClosingQuote <==> Open(env, tag, start)
  {
  }

  lemma BareThere(env: Env, tag: string, start: nat) returns (end: nat)
    requires FindPrefix(tag, 0) == Some(start) && KeyAt(tag, start) && Sanitize(env, tag).Changed?
    ensures BareInside(env, tag, start, end)
  {
    end := ClosingQuote(env, tag, start + |PREFIX|).value;
  }

  lemma FirstCloseIsOne(env: Env, tag: string, from: nat, a: nat, b: nat)
    requires FirstClose(env, tag, from, a) && FirstClose(env, tag, from, b)
    ensures a == b
  {
  }

  lemma BareMeansChanged(env: Env, tag: string, start: nat, end: nat)
    requires FindPrefix(tag, 0) == Some(start) && BareInside(env, tag, start, end)
    ensures Sanitize(env, tag).Changed?
  {
    var closing := ClosingQuote(env, tag, start + |PREFIX|);
    assert FirstClose(env, tag, start + |PREFIX|, closing.value);
    FirstCloseIsOne(env, tag, start + |PREFIX|, end, closing.value);
  }

  // ---------------------------------------------------------------------------------------------
  // The loops
  // ---------------------------------------------------------------------------------------------

  method IsEscapedAt(value: string, index: nat) returns (escaped: bool)
    requires index <= |value|
    ensures escaped == EscapedAt(value, index)
  {
    var backslashes := 0;
    var i := index;
    while i > 0 && value[i - 1] == '\\'
      invariant 0 <= i <= index && backslashes + Backslashes(value, i) == Backslashes(value, index)
    {
      backslashes, i := backslashes + 1, i - 1;
    }
    return backslashes % 2 == 1;
  }

  method ScanQuoted(quoted: string) returns (end: nat)
    requires quoted != ""
    ensures end == Scan(quoted, 1)
  {
    end := 1;
    while end < |quoted|
      invariant 1 <= end <= |quoted| && Scan(quoted, end) == Scan(quoted, 1)
    {
      var escaped := IsEscapedAt(quoted, end);
      if quoted[end] == '"' && !escaped {
        return;
      }
      end := end + 1;
    }
  }

  /** What is left after the pair at the front; `None` when it is refused. */
  method CheckPair(env: Env, tag: string, s: string) returns (rest: Option<string>)
    ensures rest == AfterPair(env, tag, s)
  {
    var colon := Colon(s);
    if colon == 0 || colon + 1 >= |s| || s[colon + 1] != '"' || !ValidKey(s[..colon]) {
      return None;
    }
    var quoted := s[colon + 1..];
    var end := ScanQuoted(quoted);
    if end >= |quoted| || !env.unquotes(quoted[..end + 1]) || !env.finds(tag, s[..colon]) {
      return None;
    }
    var left := quoted[end + 1..];
    return if left != "" && left[0] != ' ' then None else Some(left);
  }

  method ValidateStructTag(env: Env, tag: string) returns (ok: bool)
    ensures ok == Valid(env, tag)
  {
    var remaining := tag;
    while remaining != ""
      invariant Valid(env, tag) == ValidFrom(env, tag, remaining)
      decreases |remaining|
    {
      var trimmed := TrimLeft(remaining);
      if trimmed == "" {
        return true;
      }
      var rest := CheckPair(env, tag, trimmed);
      if rest.None? {
        return false;
      }
      remaining := rest.value;
    }
    return true;
  }

  method IsValidBoundary(env: Env, remainder: string) returns (ok: bool)
    ensures ok == ValidBoundary(env, remainder)
  {
    if remainder == "" {
      return true;
    }
    if remainder[0] != ' ' {
      return false;
    }
    var trimmed := TrimLeft(remainder);
    if trimmed == "" {
      return true;
    }
    ok := ValidateStructTag(env, trimmed);
  }

  method FindClosingQuote(env: Env, tag: string, from: nat) returns (end: Option<nat>)
    requires from <= |tag|
    ensures end == ClosingQuote(env, tag, from)
  {
    for index := from to |tag|
      invariant ClosingQuote(env, tag, from) == ClosingQuote(env, tag, index)
    {
      var escaped := IsEscapedAt(tag, index);
      if tag[index] == '"' && !escaped {
        var boundary := IsValidBoundary(env, tag[index + 1..]);
        if boundary {
          return Some(index);
        }
      }
    }
    return None;
  }

  method EscapeValue(value: string) returns (escaped: string, changed: bool)
    ensures escaped == Escape(value, |value|) && changed == AnyBare(value, |value|)
  {
    escaped, changed := "", false;
    for index := 0 to |value|
      invariant escaped == Escape(value, index) && changed == AnyBare(value, index)
    {
      var isEscaped := IsEscapedAt(value, index);
      if value[index] == '"' && !isEscaped {
        escaped, changed := escaped + "\\", true;
      }
      escaped := escaped + [value[index]];
    }
  }

  method SanitizeGormStructTag(env: Env, tag: string) returns (repair: Repair)
    ensures repair == Sanitize(env, tag)
  {
    var start := FindPrefix(tag, 0);
    if start.None? || (start.value > 0 && tag[start.value - 1] != ' ') {
      return Unchanged;
    }
    var from := start.value + |PREFIX|;
    var end := FindClosingQuote(env, tag, from);
    if end.None? {
      return NoClosingQuote;
    }
    var escaped, changed := EscapeValue(tag[from..end.value]);
    if !changed {
      return Unchanged;
    }
    return Changed(tag[..from] + (escaped + tag[end.value..]));
  }
}
