/** The two slug functions: slugifyProjectName of cmd/cli/projects.go, a machine over bytes, and generateSlug of
    internal/groups/service.go, a chain of string operations over characters. */
module Slugs {

  type Byte = b: int | 0 <= b < 0x100 witness 0

  predicate Upper(c: int) { 'A' as int <= c <= 'Z' as int }

  predicate Alnum(c: int) { 'a' as int <= c <= 'z' as int || '0' as int <= c <= '9' as int }

  const DASH: Byte := '-' as int

  const SHIFT: int := 'a' as int - 'A' as int

  // ---------------------------------------------------------------- slugifyProjectName

  function LowerByte(b: Byte): Byte { if Upper(b) then b + SHIFT else b }

  /** Characters of a run outside the alphabet become one dash, none while dash is set. */
  function Squeezed(s: seq<int>, dash: bool): seq<int>
    decreases |s|
  {
    if s == [] then []
    else if Alnum(s[0]) then [s[0]] + Squeezed(s[1..], false)
    else (if dash then [] else [DASH]) + Squeezed(s[1..], true)
  }

  function WithoutLastDash(s: seq<int>): seq<int> { if s != [] && s[|s| - 1] == DASH then s[..|s| - 1] else s }

  function LowerBytes(s: seq<Byte>): seq<int> { seq(|s|, i requires 0 <= i < |s| => LowerByte(s[i])) }

  function Slugified(name: seq<Byte>): seq<int> { WithoutLastDash(Squeezed(LowerBytes(name), true)) }

  lemma {:induction false} SqueezedOneMore(s: seq<int>, c: int, dash: bool)
    ensures Squeezed(s + [c], dash)
         == Squeezed(s, dash) + if Alnum(c) then [c] else if DashedAfter(s, dash) then [] else [DASH]
    decreases |s|
  {
    if s == [] {
      assert s + [c] == [c] && [c][1..] == [];
    } else {
      assert (s + [c])[1..] == s[1..] + [c];
      SqueezedOneMore(s[1..], c, !Alnum(s[0]));
      assert DashedAfter(s, dash) == DashedAfter(s[1..], !Alnum(s[0]));
    }
  }

  predicate DashedAfter(s: seq<int>, dash: bool) { if s == [] then dash else !Alnum(s[|s| - 1]) }

  method SlugifyProjectName(name: seq<Byte>) returns (slug: seq<int>)
    ensures slug == Slugified(name)
  {
    slug := [];
    var prevDash := true;
    ghost var low := LowerBytes(name);
    for i := 0 to |name|
      invariant slug == Squeezed(low[..i], true) && prevDash == DashedAfter(low[..i], true)
    {
      SqueezedOneMore(low[..i], low[i], true);
      assert low[..i + 1] == low[..i] + [low[i]];
      var c := name[i];
      if Upper(c) {
        slug, prevDash := slug + [c + SHIFT], false;
      } else if Alnum(c) {
        slug, prevDash := slug + [c], false;
      } else if !prevDash {
        slug, prevDash := slug + [DASH], true;
      }
    }
    assert low[..|name|] == low;
    if |slug| > 0 && slug[|slug| - 1] == DASH {
      slug := slug[..|slug| - 1];
    }
  }

  // ---------------------------------------------------------------- generateSlug

  /** What lies beyond ASCII: strings.ToLower there, and the bytes UTF-8 spends on a character. */
  datatype Unicode = Unicode(lower: int -> int, bytes: int -> seq<Byte>)

  ghost predicate Lawful(u: Unicode) {
    forall c :: c >= 0x80 ==> u.bytes(c) != [] && forall i :: 0 <= i < |u.bytes(c)| ==> u.bytes(c)[i] >= 0x80
  }

  function Lower(u: Unicode, c: nat): int { if c >= 0x80 then u.lower(c) else if Upper(c) then c + SHIFT else c }

  function Lowered(u: Unicode, name: seq<nat>): seq<int> { seq(|name|, i requires 0 <= i < |name| => Lower(u, name[i])) }

  function RunLength(s: seq<int>): (n: nat)
    ensures n <= |s| && (s != [] && !Alnum(s[0]) ==> n > 0)
  {
    if s == [] || Alnum(s[0]) then 0 else 1 + RunLength(s[1..])
  }

  /** ReplaceAllString of every run outside the alphabet */
  function RunsReplaced(s: seq<int>): seq<int>
    decreases |s|
  {
    if s == [] then []
    else if Alnum(s[0]) then [s[0]] + RunsReplaced(s[1..])
    else [DASH] + RunsReplaced(s[RunLength(s)..])
  }

  /** strings.Trim of dashes */
  function Trimmed(s: seq<int>): seq<int>
    decreases |s|
  {
    if s == [] then s
    else if s[0] == DASH then Trimmed(s[1..])
    else if s[|s| - 1] == DASH then Trimmed(s[..|s| - 1])
    else s
  }

  function Generated(u: Unicode, name: seq<nat>): seq<int> { Trimmed(RunsReplaced(Lowered(u, name))) }

  // ---------------------------------------------------------------- one through the other

  lemma {:induction false} SkipRun(s: seq<int>)
    ensures Squeezed(s, true) == Squeezed(s[RunLength(s)..], true)
    ensures s[RunLength(s)..] != [] ==> Alnum(s[RunLength(s)])
    decreases |s|
  {
    if s != [] && !Alnum(s[0]) {
      SkipRun(s[1..]);
      assert s[RunLength(s)..] == s[1..][RunLength(s[1..])..];
    }
  }

  lemma {:induction false} RunsSqueezed(s: seq<int>)
    ensures RunsReplaced(s) == Squeezed(s, false)
    decreases |s|
  {
    if s != [] {
      if Alnum(s[0]) {
        RunsSqueezed(s[1..]);
      } else {
        var rest := s[RunLength(s)..];
        SkipRun(s);
        RunsSqueezed(rest);
        assert Squeezed(rest, true) == Squeezed(rest, false);
        SkipRun(s[1..]);
        assert rest == s[1..][RunLength(s[1..])..];
      }
    }
  }

  /** Letters and digits, with single dashes between them. */
  ghost predicate Neat(s: seq<int>) {
    && (forall i :: 0 <= i < |s| ==> Alnum(s[i]) || s[i] == DASH)
    && (forall i :: 0 <= i < |s| - 1 ==> Alnum(s[i]) || Alnum(s[i + 1]))
  }

  ghost predicate IsSlug(s: seq<int>) { Neat(s) && (s != [] ==> Alnum(s[0]) && Alnum(s[|s| - 1])) }

  lemma {:induction false} SqueezedNeat(s: seq<int>, dash: bool)
    ensures Neat(Squeezed(s, dash)) && (dash && Squeezed(s, dash) != [] ==> Alnum(Squeezed(s, dash)[0]))
    decreases |s|
  {
    if s != [] {
      SqueezedNeat(s[1..], !Alnum(s[0]));
    }
  }

  lemma TrimmedNeat(s: seq<int>)
    requires Neat(s)
    ensures Trimmed(s) == WithoutLastDash(if s != [] && s[0] == DASH then s[1..] else s)
    ensures IsSlug(Trimmed(s))
  {
  }

  lemma LeadingDash(s: seq<int>)
    ensures Squeezed(s, true) == if Squeezed(s, false) != [] && Squeezed(s, false)[0] == DASH then Squeezed(s, false)[1..] else Squeezed(s, false)
  {
  }

  /** Over one lowered text the two algorithms agree, and give a slug. */
  lemma SameAlgorithm(s: seq<int>)
    ensures Trimmed(RunsReplaced(s)) == WithoutLastDash(Squeezed(s, true))
    ensures IsSlug(WithoutLastDash(Squeezed(s, true)))
  {
    RunsSqueezed(s);
    SqueezedNeat(s, false);
    TrimmedNeat(Squeezed(s, false));
    LeadingDash(s);
  }

  // ---------------------------------------------------------------- names

  function Encoded(u: Unicode, name: seq<nat>): seq<Byte>
    decreases |name|
  {
    if name == [] then [] else (if name[0] < 0x80 then [name[0]] else u.bytes(name[0])) + Encoded(u, name[1..])
  }

  /** The letters and digits of a text, in order: what a slug keeps. */
  function Letters(s: seq<int>): seq<int>
    decreases |s|
  {
    if s == [] then [] else (if Alnum(s[0]) then [s[0]] else []) + Letters(s[1..])
  }

  lemma {:induction false} LettersConcat(a: seq<int>, b: seq<int>)
    ensures Letters(a + b) == Letters(a) + Letters(b)
    decreases |a|
  {
    if a == [] {
      assert a + b == b;
    } else {
      assert (a + b)[1..] == a[1..] + b;
      LettersConcat(a[1..], b);
    }
  }

  lemma {:induction false} SqueezedLetters(s: seq<int>, dash: bool)
    ensures Letters(Squeezed(s, dash)) == Letters(s)
    decreases |s|
  {
    if s != [] {
      SqueezedLetters(s[1..], !Alnum(s[0]));
      var head := if Alnum(s[0]) then [s[0]] else if dash then [] else [DASH];
      LettersConcat(head, Squeezed(s[1..], !Alnum(s[0])));
      assert head != [] ==> head[1..] == [];
    }
  }

  lemma SlugLetters(s: seq<int>)
    ensures Letters(WithoutLastDash(Squeezed(s, true))) == Letters(s)
  {
    SqueezedLetters(s, true);
    var t := Squeezed(s, true);
    if t != [] && t[|t| - 1] == DASH {
      assert t == t[..|t| - 1] + [DASH];
      LettersConcat(t[..|t| - 1], [DASH]);
      assert [DASH][1..] == [];
    }
  }

  /** A block of characters outside the alphabet squeezes like one of them. */
  lemma {:induction false} SqueezedBlock(block: seq<int>, rest: seq<int>, dash: bool)
    requires block != [] && forall i :: 0 <= i < |block| ==> !Alnum(block[i])
    ensures Squeezed(block + rest, dash) == (if dash then [] else [DASH]) + Squeezed(rest, true)
    decreases |block|
  {
    assert (block + rest)[1..] == block[1..] + rest;
    if |block| > 1 {
      SqueezedBlock(block[1..], rest, true);
    } else {
      assert block[1..] + rest == rest;
    }
  }

  /** No character beyond ASCII of the name lowers to an ASCII letter, as the Kelvin sign does. */
  ghost predicate Plain(u: Unicode, name: seq<nat>) {
    forall i :: 0 <= i < |name| && name[i] >= 0x80 ==> !Alnum(u.lower(name[i]))
  }

  lemma {:induction false} PlainSqueezed(u: Unicode, name: seq<nat>, dash: bool)
    requires Lawful(u) && Plain(u, name)
    ensures Squeezed(LowerBytes(Encoded(u, name)), dash) == Squeezed(Lowered(u, name), dash)
    decreases |name|
  {
    if name != [] {
      var c := name[0];
      assert Lowered(u, name) == [Lower(u, c)] + Lowered(u, name[1..]);
      var head := if c < 0x80 then [c] else u.bytes(c);
      assert LowerBytes(Encoded(u, name)) == LowerBytes(head) + LowerBytes(Encoded(u, name[1..]));
      if Alnum(Lower(u, c)) {
        PlainSqueezed(u, name[1..], false);
      } else {
        PlainSqueezed(u, name[1..], true);
        SqueezedBlock(LowerBytes(head), LowerBytes(Encoded(u, name[1..])), dash);
        SqueezedBlock([Lower(u, c)], Lowered(u, name[1..]), dash);
      }
    }
  }

  lemma {:induction false} FewerLetters(u: Unicode, name: seq<nat>)
    requires Lawful(u)
    ensures |Letters(LowerBytes(Encoded(u, name)))| <= |Letters(Lowered(u, name))|
    ensures !Plain(u, name) ==> |Letters(LowerBytes(Encoded(u, name)))| < |Letters(Lowered(u, name))|
    decreases |name|
  {
    if name != [] {
      var c := name[0];
      FewerLetters(u, name[1..]);
      assert Lowered(u, name) == [Lower(u, c)] + Lowered(u, name[1..]);
      var head := if c < 0x80 then [c] else u.bytes(c);
      assert LowerBytes(Encoded(u, name)) == LowerBytes(head) + LowerBytes(Encoded(u, name[1..]));
      LettersConcat(LowerBytes(head), LowerBytes(Encoded(u, name[1..])));
      LettersConcat([Lower(u, c)], Lowered(u, name[1..]));
      OneLetter(Lower(u, c));
      if c < 0x80 {
        assert LowerBytes(head) == [Lower(u, c)];
      } else {
        NoLetters(LowerBytes(head));
      }
    }
  }

  lemma OneLetter(c: int)
    ensures Letters([c]) == if Alnum(c) then [c] else []
  {
  }

  lemma {:induction false} NoLetters(s: seq<int>)
    requires forall i :: 0 <= i < |s| ==> !Alnum(s[i])
    ensures Letters(s) == []
    decreases |s|
  {
    if s != [] {
      NoLetters(s[1..]);
    }
  }

  /** The two slugs of a name are equal exactly when no character of it beyond ASCII lowers into the alphabet: on
      every ASCII name, and on most others. */
  lemma SlugsAgreeIff(u: Unicode, name: seq<nat>)
    requires Lawful(u)
    ensures Slugified(Encoded(u, name)) == Generated(u, name) <==> Plain(u, name)
    ensures IsSlug(Slugified(Encoded(u, name))) && IsSlug(Generated(u, name))
  {
    var bytes, chars := LowerBytes(Encoded(u, name)), Lowered(u, name);
    SameAlgorithm(bytes);
    SameAlgorithm(chars);
    if Plain(u, name) {
      PlainSqueezed(u, name, true);
    } else {
      SlugLetters(bytes);
      SlugLetters(chars);
      FewerLetters(u, name);
    }
  }

  lemma {:induction false} SlugFixed(s: seq<int>, dash: bool)
    requires Neat(s) && (dash && s != [] ==> Alnum(s[0]))
    ensures Squeezed(s, dash) == s
    decreases |s|
  {
    if s != [] {
      SlugFixed(s[1..], !Alnum(s[0]));
    }
  }

  /** A slug is its own slug, under either function. */
  lemma SlugsIdempotent(u: Unicode, slug: seq<Byte>)
    requires IsSlug(slug)
    ensures Slugified(slug) == slug && Generated(u, slug) == slug
  {
    assert LowerBytes(slug) == slug && Lowered(u, slug) == slug;
    SlugFixed(slug, true);
    SameAlgorithm(slug);
  }
}
