/**
 The string functions of src/utils/utils.cpp, the name encoding built on them, and the decimal numbers
 that messages carry.
 */
module Text {
  import opened Common

  predicate At(s: string, needle: string, i: nat) {
    i + |needle| <= |s| && s[i..i + |needle|] == needle
  }

  /** std::string::find from pos */
  function Find(s: string, needle: string, pos: nat): (r: Option<nat>)
    ensures r.Some? ==> pos <= r.value <= |s| - |needle|
    decreases |s| - pos
  {
    if pos + |needle| > |s| then None
    else if s[pos..pos + |needle|] == needle then Some(pos)
    else if pos == |s| then None
    else Find(s, needle, pos + 1)
  }

  lemma {:induction false} FoundAt(s: string, needle: string, pos: nat)
    ensures var r := Find(s, needle, pos); r.Some? ==> At(s, needle, r.value)
    decreases |s| - pos
  {
    if pos < |s| { FoundAt(s, needle, pos + 1); }
  }

  /** No occurrence is earlier than the one find returns. */
  lemma {:induction false} FindIsFirst(s: string, needle: string, pos: nat, j: nat)
    requires pos <= j && At(s, needle, j)
    ensures Find(s, needle, pos).Some? && Find(s, needle, pos).value <= j
    decreases |s| - pos
  {
    if pos < j && s[pos..pos + |needle|] != needle { FindIsFirst(s, needle, pos + 1, j); }
  }

  /** Searching on behind a is searching what follows a. */
  lemma {:induction false} FindShift(a: string, b: string, needle: string, pos: nat)
    ensures var i := Find(b, needle, pos);
      Find(a + b, needle, |a| + pos) == if i.None? then None else Some(|a| + i.value)
    decreases |b| - pos
  {
    if pos + |needle| <= |b| {
      assert (a + b)[|a| + pos..|a| + pos + |needle|] == b[pos..pos + |needle|];
      if b[pos..pos + |needle|] != needle && pos != |b| { FindShift(a, b, needle, pos + 1); }
    }
  }

  predicate Has(s: string, needle: string) {
    Find(s, needle, 0).Some?
  }

  function After(s: string, prefix: string): string {
    var i := Find(s, prefix, 0);
    if i.None? then s else s[i.value + |prefix|..]
  }

  function Before(s: string, suffix: string): string {
    var i := Find(s, suffix, 0);
    if i.None? then s else s[..i.value]
  }

  predicate StartsWith(s: string, prefix: string) {
    prefix <= s
  }

  /** Cutting at a text's first occurrence gives both sides; without one, both functions return all of s. */
  lemma CutAtFirst(a: string, mark: string, b: string)
    requires forall j :: 0 <= j < |a| ==> !At(a + mark + b, mark, j)
    ensures Find(a + mark + b, mark, 0) == Some(|a|)
    ensures Before(a + mark + b, mark) == a && After(a + mark + b, mark) == b && Has(a + mark + b, mark)
  {
    var s := a + mark + b;
    assert s[|a|..|a| + |mark|] == mark;
    FindIsFirst(s, mark, 0, |a|);
    FoundAt(s, mark, 0);
    assert s[..|a|] == a && s[|a| + |mark|..] == b;
  }

  lemma CutAtChar(a: string, c: char, b: string)
    requires c !in a
    ensures Before(a + [c] + b, [c]) == a && After(a + [c] + b, [c]) == b && Has(a + [c] + b, [c])
  {
    var s := a + [c] + b;
    forall j | 0 <= j < |a| ensures !At(s, [c], j) {
      assert s[j..j + 1] == [a[j]];
    }
    CutAtFirst(a, [c], b);
  }

  lemma HasChar(s: string, c: char)
    ensures Has(s, [c]) <==> c in s
    ensures c !in s ==> Before(s, [c]) == s && After(s, [c]) == s
    ensures c in s ==> |Before(s, [c])| < |s| && c !in Before(s, [c])
  {
    var i := Find(s, [c], 0);
    FoundAt(s, [c], 0);
    if i.Some? {
      assert s[i.value..i.value + 1][0] == s[i.value];
    }
    forall k | 0 <= k < |s| && s[k] == c ensures i.Some? && i.value <= k {
      assert s[k..k + 1] == [c];
      FindIsFirst(s, [c], 0, k);
    }
  }

  /** str_has, str_after and str_before for any text looked for: whether it occurs, and what the cuts leave. */
  lemma CutsOf(s: string, mark: string)
    ensures Has(s, mark) <==> exists j :: 0 <= j <= |s| && At(s, mark, j)
    ensures Has(s, mark) ==>
      && Before(s, mark) + mark + After(s, mark) == s
      && forall j :: 0 <= j < |Before(s, mark)| ==> !At(s, mark, j)
    ensures !Has(s, mark) ==> Before(s, mark) == s && After(s, mark) == s
  {
    FoundAt(s, mark, 0);
    forall j | 0 <= j <= |s| && At(s, mark, j) ensures Has(s, mark) && Find(s, mark, 0).value <= j {
      FindIsFirst(s, mark, 0, j);
    }
    if Has(s, mark) {
      assert At(s, mark, Find(s, mark, 0).value);
      Glued(s, mark, Find(s, mark, 0).value);
    }
  }

  lemma Glued(s: string, mark: string, i: nat)
    requires At(s, mark, i)
    ensures s[..i] + mark + s[i + |mark|..] == s
  {
  }

  /** What comes before the first c. */
  lemma BeforeChar(s: string, c: char)
    ensures var b := Before(s, [c]);
      b <= s && c !in b && (|b| < |s| ==> s[|b|] == c)
  {
    var i := Find(s, [c], 0);
    FoundAt(s, [c], 0);
    if i.Some? { assert s[i.value..i.value + 1][0] == s[i.value]; }
    forall k | 0 <= k < |s| && s[k] == c ensures i.Some? && i.value <= k {
      assert s[k..k + 1] == [c];
      FindIsFirst(s, [c], 0, k);
    }
  }

  /** An occurrence cannot reach into a tail that lacks its last character. */
  lemma HasAhead(a: string, b: string, needle: string)
    requires needle != [] && needle[|needle| - 1] !in b
    ensures Has(a + b, needle) <==> Has(a, needle)
  {
    FoundAt(a, needle, 0);
    FoundAt(a + b, needle, 0);
    if Has(a, needle) {
      var i := Find(a, needle, 0).value;
      AtAhead(a, b, needle, i);
      FindIsFirst(a + b, needle, 0, i);
    }
    if Has(a + b, needle) {
      var i := Find(a + b, needle, 0).value;
      AtAhead(a, b, needle, i);
      FindIsFirst(a, needle, 0, i);
    }
  }

  lemma AtAhead(a: string, b: string, needle: string, i: nat)
    requires needle != [] && needle[|needle| - 1] !in b
    ensures At(a + b, needle, i) <==> At(a, needle, i)
  {
    var s, n := a + b, |needle|;
    if i + n <= |a| {
      assert s[i..i + n] == a[i..i + n];
    } else if i + n <= |s| {
      assert s[i + n - 1] == b[i + n - 1 - |a|];
      assert s[i..i + n][n - 1] == s[i + n - 1];
    }
  }

  // ---------- str_replace

  /** s cut at the leftmost, non-overlapping occurrences of search. */
  function Split(s: string, search: string): (parts: seq<string>)
    requires search != []
    ensures parts != []
    decreases |s|
  {
    var i := Find(s, search, 0);
    if i.None? then [s] else [s[..i.value]] + Split(s[i.value + |search|..], search)
  }

  function Join(parts: seq<string>, sep: string): string
    requires parts != []
  {
    if |parts| == 1 then parts[0] else parts[0] + (sep + Join(parts[1..], sep))
  }

  /** Every part ends where search first occurs in what is left of the text. */
  predicate Leftmost(parts: seq<string>, search: string)
    requires parts != []
    decreases |parts|
  {
    if |parts| == 1 then !Has(parts[0], search)
    else Find(Join(parts, search), search, 0) == Some(|parts[0]|) && Leftmost(parts[1..], search)
  }

  /** Split is the one way to cut s at leftmost occurrences: its parts joined again are s. */
  lemma {:induction false} SplitIsLeftmost(s: string, search: string)
    requires search != []
    ensures Join(Split(s, search), search) == s && Leftmost(Split(s, search), search)
    decreases |s|
  {
    var i := Find(s, search, 0);
    if i.None? {
      OnlyPart(s, search);
    } else {
      var tail := s[i.value + |search|..];
      SplitIsLeftmost(tail, search);
      FirstPart(s, search, i.value, tail, Split(tail, search));
    }
  }

  /** s is split like this. */
  predicate WellSplit(s: string, search: string)
    requires search != []
  {
    Join(Split(s, search), search) == s && Leftmost(Split(s, search), search)
  }

  lemma {:induction false} OnlyPart(s: string, search: string)
    requires search != [] && Find(s, search, 0) == None
    ensures WellSplit(s, search)
  {
    assert Split(s, search) == [s];
  }

  /** The part before the first occurrence, put before the leftmost parts of what comes after it. */
  lemma {:induction false} FirstPart(s: string, search: string, i: nat, tail: string, rest: seq<string>)
    requires search != [] && Find(s, search, 0) == Some(i) && tail == s[i + |search|..] && rest == Split(tail, search)
    requires Join(rest, search) == tail && Leftmost(rest, search)
    ensures WellSplit(s, search)
  {
    SplitAt(s, search, i);
    FoundGlue(s, search, i);
    LeftmostFirst(s, s[..i], rest, search, tail);
  }

  lemma {:induction false} FoundGlue(s: string, search: string, i: nat)
    requires Find(s, search, 0) == Some(i)
    ensures s == s[..i] + (search + s[i + |search|..])
  {
    FoundAt(s, search, 0);
    Glue(s, i, search);
  }

  lemma {:induction false} LeftmostFirst(s: string, head: string, parts: seq<string>, search: string, tail: string)
    requires parts != [] && Leftmost(parts, search) && Join(parts, search) == tail && s == head + (search + tail)
    requires Find(s, search, 0) == Some(|head|)
    ensures Join([head] + parts, search) == s && Leftmost([head] + parts, search)
  {
    assert ([head] + parts)[1..] == parts;
  }

  lemma {:induction false} SplitAt(s: string, search: string, i: nat)
    requires search != [] && Find(s, search, 0) == Some(i)
    ensures Split(s, search) == [s[..i]] + Split(s[i + |search|..], search)
  {
  }

  lemma Glue(s: string, i: nat, search: string)
    requires At(s, search, i)
    ensures s == s[..i] + (search + s[i + |search|..])
  {
  }

  lemma {:induction false} SplitUnique(parts: seq<string>, search: string)
    requires search != [] && parts != [] && Leftmost(parts, search)
    ensures Split(Join(parts, search), search) == parts
    decreases |parts|
  {
    if |parts| > 1 {
      var rest := Join(parts[1..], search);
      SplitUnique(parts[1..], search);
      assert Join(parts, search) == parts[0] + (search + rest);
      SplitGlued(parts[0], search, rest);
      assert parts == [parts[0]] + parts[1..];
    }
  }

  lemma SplitGlued(part: string, search: string, rest: string)
    requires search != [] && Find(part + (search + rest), search, 0) == Some(|part|)
    ensures Split(part + (search + rest), search) == [part] + Split(rest, search)
  {
    Unglue(part, search, rest);
  }

  lemma Unglue(a: string, mark: string, b: string)
    ensures var s := a + (mark + b);
      s[..|a|] == a && s[|a| + |mark|..] == b
  {
  }

  function Replaced(s: string, search: string, replace: string): string
    requires search != []
    decreases |s|
  {
    var i := Find(s, search, 0);
    if i.None? then s else s[..i.value] + (replace + Replaced(s[i.value + |search|..], search, replace))
  }

  /** Replacing is splitting and joining with another separator. */
  lemma {:induction false} ReplacedIsJoin(s: string, search: string, replace: string)
    requires search != []
    ensures Replaced(s, search, replace) == Join(Split(s, search), replace)
    decreases |s|
  {
    var i := Find(s, search, 0);
    if i.Some? {
      var rest := Split(s[i.value + |search|..], search);
      ReplacedIsJoin(s[i.value + |search|..], search, replace);
      JoinOne(s[..i.value], rest, replace);
    }
  }

  lemma JoinOne(part: string, rest: seq<string>, sep: string)
    requires rest != []
    ensures Join([part] + rest, sep) == part + (sep + Join(rest, sep))
  {
    assert ([part] + rest)[1..] == rest;
  }

  /** str_replace: the loop that edits its subject in place. */
  method StrReplace(subject: string, search: string, replace: string) returns (r: string)
    requires search != []
    ensures r == Replaced(subject, search, replace)
  {
    r := subject;
    var pos := 0;
    var next := Find(r, search, pos);
    assert r[0..] == r;
    while next.Some?
      invariant 0 <= pos <= |r| && next == Find(r, search, pos)
      invariant r[..pos] + Replaced(r[pos..], search, replace) == Replaced(subject, search, replace)
      decreases |r| - pos, next
    {
      ReplaceOne(r, pos, next.value, search, replace);
      pos := next.value;
      r := r[..pos] + replace + r[pos + |search|..];
      pos := pos + |replace|;
      next := Find(r, search, pos);
    }
    Rest(r, pos, search);
  }

  lemma {:induction false} ReplaceOne(s: string, pos: nat, i: nat, search: string, replace: string)
    requires search != [] && pos <= |s| && Find(s, search, pos) == Some(i)
    ensures var s' := s[..i] + replace + s[i + |search|..];
      var pos' := i + |replace|;
      && |s'| - pos' < |s| - pos
      && s'[..pos'] + Replaced(s'[pos'..], search, replace) == s[..pos] + Replaced(s[pos..], search, replace)
  {
    Rest(s, pos, search);
    TailSlices(s, pos, i, |search|);
    ReplacedParts(s[pos..], search, replace, i - pos, s[pos..i], s[i + |search|..]);
    Slices(s, pos, i, |search|, replace, s[..i] + replace + s[i + |search|..]);
    Assoc(s[..pos], s[pos..i], replace, Replaced(s[i + |search|..], search, replace));
  }

  /** Replacing goes on behind the first occurrence. */
  lemma {:induction false} ReplacedParts(s: string, search: string, replace: string, i: nat, head: string, tail: string)
    requires search != [] && Find(s, search, 0) == Some(i) && head == s[..i] && tail == s[i + |search|..]
    ensures Replaced(s, search, replace) == head + (replace + Replaced(tail, search, replace))
  {
  }

  lemma TailSlices(s: string, pos: nat, i: nat, n: nat)
    requires pos <= i <= |s| - n
    ensures s[pos..][..i - pos] == s[pos..i] && s[pos..][i - pos + n..] == s[i + n..]
  {
  }

  lemma Slices(s: string, pos: nat, i: nat, n: nat, replace: string, s': string)
    requires pos <= i <= |s| - n && s' == s[..i] + replace + s[i + n..]
    ensures s'[..i + |replace|] == s[..pos] + s[pos..i] + replace && s'[i + |replace|..] == s[i + n..]
    ensures |s'| - (i + |replace|) == |s| - i - n
  {
  }

  /** Searching s from pos is searching what is left of it. */
  lemma Rest(s: string, pos: nat, needle: string)
    requires pos <= |s|
    ensures var i := Find(s[pos..], needle, 0);
      Find(s, needle, pos) == if i.None? then None else Some(pos + i.value)
  {
    assert s[..pos] + s[pos..] == s;
    FindShift(s[..pos], s[pos..], needle, 0);
  }

  lemma Assoc(a: string, b: string, c: string, d: string)
    ensures a + b + c + d == a + (b + (c + d))
  {
  }

  /** The subject and position after n rounds of the loop, none if it has ended by then. */
  function Rounds(subject: string, search: string, replace: string, n: nat): Option<(string, nat)> {
    if n == 0 then Some((subject, 0))
    else
      var before := Rounds(subject, search, replace, n - 1);
      if before.None? then None
      else
        var i := Find(before.value.0, search, before.value.1);
        if i.None? then None
        else Some((before.value.0[..i.value] + replace + before.value.0[i.value + |search|..], i.value + |replace|))
  }

  /** With an empty search text the loop never ends, which is why StrReplace asks for one. */
  lemma {:induction false} EmptySearchNeverEnds(subject: string, replace: string, n: nat)
    ensures var r := Rounds(subject, "", replace, n); r.Some? && r.value.1 <= |r.value.0|
    ensures Rounds(subject, "", replace, n).value.1 == n * |replace|
    decreases n
  {
    if n > 0 {
      EmptySearchNeverEnds(subject, replace, n - 1);
      var before := Rounds(subject, "", replace, n - 1).value;
      assert Find(before.0, "", before.1) == Some(before.1) by { assert before.0[before.1..before.1] == ""; }
      assert n * |replace| == (n - 1) * |replace| + |replace|;
    }
  }

  // ---------- one scan instead of a search

  lemma {:induction false} ReplaceHere(s: string, search: string, replace: string)
    requires search != [] && StartsWith(s, search)
    ensures Replaced(s, search, replace) == replace + Replaced(s[|search|..], search, replace)
  {
    assert Find(s, search, 0) == Some(0);
    ReplacedParts(s, search, replace, 0, [], s[|search|..]);
    var rest := replace + Replaced(s[|search|..], search, replace);
    assert [] + rest == rest;
  }

  lemma FindLater(s: string, needle: string)
    requires s != [] && !StartsWith(s, needle)
    ensures var i := Find(s[1..], needle, 0);
      Find(s, needle, 0) == if i.None? then None else Some(1 + i.value)
  {
    Rest(s, 1, needle);
  }

  lemma {:induction false} ReplaceLater(s: string, search: string, replace: string)
    requires search != [] && s != [] && !StartsWith(s, search)
    ensures Replaced(s, search, replace) == [s[0]] + Replaced(s[1..], search, replace)
  {
    var t := s[1..];
    assert s == [s[0]] + t;
    FindLater(s, search);
    var i := Find(t, search, 0);
    if i.Some? {
      var k := i.value;
      Tails(s, k, |search|);
      ReplacedParts(s, search, replace, 1 + k, s[..1 + k], t[k + |search|..]);
      ReplacedParts(t, search, replace, k, t[..k], t[k + |search|..]);
      Shift(s[0], t[..k], s[..1 + k], replace + Replaced(t[k + |search|..], search, replace));
    }
  }

  lemma Tails(s: string, k: nat, n: nat)
    requires 1 + k + n <= |s|
    ensures s[..1 + k] == [s[0]] + s[1..][..k] && s[1 + k + n..] == s[1..][k + n..]
  {
  }

  lemma Shift(c: char, a: string, a': string, b: string)
    requires a' == [c] + a
    ensures a' + b == [c] + (a + b)
  {
  }

  // ---------- ENC

  const SLASH := "@@@"

  function Code(c: char): string {
    if c == '/' then SLASH else [c]
  }

  /** ENC, character by character. */
  function Enc(name: string): string {
    if name == [] then [] else Code(name[0]) + Enc(name[1..])
  }

  /** Replacing "@@@" by "/", scanning from the left. */
  function Dec(code: string): string {
    if code == [] then []
    else if StartsWith(code, SLASH) then "/" + Dec(code[3..])
    else [code[0]] + Dec(code[1..])
  }

  lemma {:induction false} EncIsReplaced(name: string)
    ensures Replaced(name, "/", SLASH) == Enc(name)
    decreases |name|
  {
    if name != [] {
      EncIsReplaced(name[1..]);
      assert StartsWith(name, "/") <==> name[0] == '/';
      if name[0] == '/' { ReplaceHere(name, "/", SLASH); } else { ReplaceLater(name, "/", SLASH); }
    }
  }

  lemma {:induction false} DecIsReplaced(code: string)
    ensures Replaced(code, SLASH, "/") == Dec(code)
    decreases |code|
  {
    if code != [] {
      if StartsWith(code, SLASH) {
        DecIsReplaced(code[3..]);
        ReplaceHere(code, SLASH, "/");
      } else {
        DecIsReplaced(code[1..]);
        ReplaceLater(code, SLASH, "/");
      }
    }
  }

  /** ENC(str) */
  method Encode(name: string) returns (r: string)
    ensures r == Enc(name) && '/' !in r
  {
    r := StrReplace(name, "/", SLASH);
    EncIsReplaced(name);
    EncHasNoSlash(name);
  }

  lemma {:induction false} EncHasNoSlash(name: string)
    ensures '/' !in Enc(name)
    decreases |name|
  {
    if name != [] { EncHasNoSlash(name[1..]); }
  }

  predicate Decodable(name: string) {
    !Has(name, "@@@") && !Has(name, "@/")
  }

  lemma HasScan(s: string, needle: string)
    requires needle != [] && s != []
    ensures Has(s, needle) <==> StartsWith(s, needle) || Has(s[1..], needle)
  {
    Rest(s, 1, needle);
  }

  /** After this '@' the encoding goes on with two more, which decoding takes for a slash. */
  predicate Trapped(name: string) {
    && |name| > 1 && name[0] == '@'
    && (name[1] == '/' || (name[1] == '@' && |name| > 2 && (name[2] == '@' || name[2] == '/')))
  }

  lemma EncStarts(name: string)
    requires name != [] && name[0] != '/'
    ensures StartsWith(Enc(name), SLASH) <==> Trapped(name)
  {
    if |name| > 1 && name[1] != '/' { Behind(name[1], Enc(name[1..][1..])); }
    Behind3(name[0], Enc(name[1..]));
  }

  lemma Behind3(c: char, s: string)
    ensures StartsWith([c] + s, SLASH) <==> c == '@' && StartsWith(s, "@@")
  {
    var t := [c] + s;
    assert t[1..] == s;
    if c == '@' && StartsWith(s, "@@") { assert t[..3] == [c] + s[..2] == SLASH; }
    if StartsWith(t, SLASH) {
      assert SLASH[0] == t[0] && SLASH[1] == t[1] && SLASH[2] == t[2];
      assert s[..2] == "@@";
    }
  }

  lemma Behind(c: char, s: string)
    ensures StartsWith([c] + s, "@@") <==> c == '@' && s != [] && s[0] == '@'
  {
    var t := [c] + s;
    if c == '@' && s != [] && s[0] == '@' { assert t[..2] == "@@"; }
    if StartsWith(t, "@@") { assert "@@"[0] == t[0] && "@@"[1] == t[1]; }
  }

  lemma DecScan(name: string)
    requires name != []
    ensures name[0] == '/' ==> Dec(Enc(name)) == "/" + Dec(Enc(name[1..]))
    ensures Trapped(name) ==> Dec(Enc(name)) != [] && Dec(Enc(name))[0] == '/'
    ensures name[0] != '/' && !Trapped(name) ==> Dec(Enc(name)) == [name[0]] + Dec(Enc(name[1..]))
  {
    var e := Enc(name[1..]);
    if name[0] == '/' {
      assert (SLASH + e)[3..] == e;
    } else {
      EncStarts(name);
      assert ([name[0]] + e)[1..] == e;
    }
  }

  lemma DecodableScan(name: string)
    requires name != []
    ensures Trapped(name) ==> !Decodable(name)
    ensures !Trapped(name) ==> (Decodable(name) <==> Decodable(name[1..]))
  {
    HasScan(name, "@@@");
    HasScan(name, "@/");
    assert StartsWith(name, "@/") <==> |name| > 1 && name[0] == '@' && name[1] == '/' by {
      if |name| > 1 && name[0] == '@' && name[1] == '/' { assert name[..2] == "@/"; }
    }
    assert StartsWith(name, "@@@") <==> |name| > 2 && name[0] == '@' && name[1] == '@' && name[2] == '@' by {
      if |name| > 2 && name[0] == '@' && name[1] == '@' && name[2] == '@' { assert name[..3] == "@@@"; }
    }
    if |name| > 1 {
      HasScan(name[1..], "@/");
      if |name| > 2 && name[1] == '@' && name[2] == '/' { assert name[1..][..2] == "@/"; }
    }
  }

  lemma {:induction false} ScanRoundTrip(name: string)
    ensures Dec(Enc(name)) == name <==> Decodable(name)
    decreases |name|
  {
    if name == [] {
      assert Decodable("");
    } else {
      ScanRoundTrip(name[1..]);
      DecScan(name);
      DecodableScan(name);
      assert name == [name[0]] + name[1..];
      assert Dec(Enc(name)) == [name[0]] + Dec(Enc(name[1..])) ==> Dec(Enc(name))[1..] == Dec(Enc(name[1..]));
    }
  }

  /** Replacing "@@@" by "/" undoes replacing "/" by "@@@" exactly on the names with neither "@@@" nor "@/". */
  lemma {:induction false} EncRoundTrip(name: string)
    ensures Replaced(Replaced(name, "/", "@@@"), "@@@", "/") == name <==> !Has(name, "@@@") && !Has(name, "@/")
  {
    EncIsReplaced(name);
    DecIsReplaced(Enc(name));
    ScanRoundTrip(name);
  }

  lemma {:induction false} EncAppend(a: string, b: string)
    ensures Enc(a + b) == Enc(a) + Enc(b)
    decreases |a|
  {
    if a == [] {
      assert a + b == b;
    } else {
      assert (a + b)[1..] == a[1..] + b;
      EncAppend(a[1..], b);
    }
  }

  /** Outside those names the encoding is not even one-to-one. */
  lemma EncCollides(a: string, b: string)
    ensures a + (['@'] + (['/'] + b)) != a + (['/'] + (['@'] + b))
    ensures Enc(a + (['@'] + (['/'] + b))) == Enc(a + (['/'] + (['@'] + b)))
  {
    var x, y := ['@'] + (['/'] + b), ['/'] + (['@'] + b);
    EncAppend(a, x);
    EncAppend(a, y);
    assert x[1..] == ['/'] + b && x[1..][1..] == b && y[1..] == ['@'] + b && y[1..][1..] == b;
    AtSigns(Enc(b));
    assert (a + x)[|a|] == '@' && (a + y)[|a|] == '/';
  }

  lemma AtSigns(e: string)
    ensures ['@'] + (SLASH + e) == SLASH + (['@'] + e)
  {
  }

  // ---------- decimal numbers

  function Digit(d: nat): (c: char)
    requires d < 10
    ensures IsDigit(c) && DigitValue(c) == d
  {
    '0' + d as char
  }

  predicate IsDigit(c: char) {
    '0' <= c <= '9'
  }

  function DigitValue(c: char): nat
    requires IsDigit(c)
  {
    (c - '0') as nat
  }

  function PrintNat(n: nat): string {
    if n < 10 then [Digit(n)] else PrintNat(n / 10) + [Digit(n % 10)]
  }

  /** An int written to an ostringstream. */
  function Print(n: int): string {
    if n < 0 then "-" + PrintNat(-n) else PrintNat(n)
  }

  function Digits(s: string, acc: nat): nat {
    if s == [] || !IsDigit(s[0]) then acc else Digits(s[1..], 10 * acc + DigitValue(s[0]))
  }

  predicate IsSpace(c: char) {
    c == ' ' || '\t' <= c <= '\r'
  }

  /** atoi, for values that fit an int */
  function Atoi(s: string): int
    decreases |s|
  {
    if s == [] then 0
    else if IsSpace(s[0]) then Atoi(s[1..])
    else if s[0] == '-' then -(Digits(s[1..], 0) as int)
    else if s[0] == '+' then Digits(s[1..], 0)
    else Digits(s, 0)
  }

  lemma {:induction false} DigitsOfPrint(n: nat, rest: string)
    ensures Digits(PrintNat(n) + rest, 0) == Digits(rest, n)
    ensures PrintNat(n) != [] && IsDigit(PrintNat(n)[0]) && forall c :: c in PrintNat(n) ==> IsDigit(c)
    decreases n
  {
    if n < 10 {
      assert ([Digit(n)] + rest)[1..] == rest;
    } else {
      var d := [Digit(n % 10)];
      DigitsOfPrint(n / 10, d + rest);
      assert PrintNat(n) + rest == PrintNat(n / 10) + (d + rest);
      assert (d + rest)[1..] == rest;
    }
  }

  /** atoi undoes printing, whatever follows the number that is not a digit. */
  lemma AtoiOfPrint(n: int, rest: string)
    requires rest == [] || !IsDigit(rest[0])
    ensures Atoi(Print(n) + rest) == n
    ensures forall c :: c in Print(n) ==> c == '-' || IsDigit(c)
  {
    var m: nat := if n < 0 then -n else n;
    DigitsOfPrint(m, rest);
    var t := PrintNat(m) + rest;
    assert t[0] == PrintNat(m)[0];
    if n < 0 {
      assert Print(n) + rest == ['-'] + t && (['-'] + t)[1..] == t;
      AtoiOfMinus(t);
    } else {
      AtoiOfDigits(t);
    }
  }

  lemma AtoiOfDigits(t: string)
    requires t != [] && IsDigit(t[0])
    ensures Atoi(t) == Digits(t, 0)
  {
  }

  lemma AtoiOfMinus(t: string)
    ensures Atoi(['-'] + t) == -(Digits(t, 0) as int)
  {
    assert (['-'] + t)[1..] == t;
  }

  predicate AllDigits(s: string) {
    forall i :: 0 <= i < |s| ==> '0' <= s[i] <= '9'
  }

  /** One more digit behind a number makes it ten times as much and that digit more. */
  lemma {:induction false} DigitBehind(s: string, d: char, acc: nat)
    requires AllDigits(s) && '0' <= d <= '9'
    ensures Digits(s + [d], acc) == 10 * Digits(s, acc) + (d - '0') as nat
    decreases |s|
  {
    if s == [] {
      assert [d][1..] == [];
      assert [] + [d] == [d];
      assert Digits([], 10 * acc + DigitValue(d)) == 10 * acc + DigitValue(d);
    } else {
      assert (s + [d])[1..] == s[1..] + [d] && (s + [d])[0] == s[0];
      forall i | 0 <= i < |s| - 1 ensures '0' <= s[1..][i] <= '9' { assert s[1..][i] == s[i + 1]; }
      DigitBehind(s[1..], d, 10 * acc + DigitValue(s[0]));
    }
  }

  /** atoi reads decimal digits, after any white space and one sign. */
  lemma AtoiIsDecimal(s: string, d: char)
    requires AllDigits(s) && '0' <= d <= '9'
    ensures Atoi("") == 0
    ensures Atoi(s + [d]) == 10 * Atoi(s) + (d - '0') as int
    ensures Atoi(['-'] + s) == -Atoi(s) && Atoi(['+'] + s) == Atoi(s)
  {
    DigitBehind(s, d, 0);
    AtoiOfDigits(s + [d]);
    if s != [] { AtoiOfDigits(s); }
    AtoiOfMinus(s);
    assert (['+'] + s)[1..] == s;
  }

  lemma AtoiSkipsSpace(c: char, s: string)
    requires c == ' ' || c == '\t' || c == '\n' || c == '\r'
    ensures Atoi([c] + s) == Atoi(s)
  {
    assert ([c] + s)[1..] == s;
  }

  /** A number is printed without a leading zero, and with a sign only if it is negative. */
  lemma {:induction false} PrintedShort(n: nat)
    ensures n > 0 ==> PrintNat(n)[0] != '0'
    ensures PrintNat(0) == "0" && AllDigits(PrintNat(n))
    ensures Print(n) == PrintNat(n) && (n > 0 ==> Print(-(n as int)) == "-" + PrintNat(n))
    decreases n
  {
    DigitsOfPrint(n, "");
    if n >= 10 { PrintedShort(n / 10); }
  }
}
