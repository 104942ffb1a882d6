/**
 Branch names: the normal form that sanitizeBranchName computes, the names generated for Asana tasks,
 and the validation of names. Lower-casing is a parameter: any function of single characters that
 yields no letter in A-Z and leaves a-z, 0-9 and the hyphen alone.
 */
module BranchNames {

  const MAX_GENERATED := 50
  const MAX_VALIDATED := 100
  const MAX_SLUG := 40

  predicate Alphanumeric(c: char) {
    'a' <= c <= 'z' || '0' <= c <= '9'
  }

  predicate Kept(c: char) {
    Alphanumeric(c) || c == '-'
  }

  ghost predicate LowersCase(lower: char -> char) {
    forall c :: !('A' <= lower(c) <= 'Z') && (Kept(c) ==> lower(c) == c)
  }

  // ---- String helpers ----

  function Map(s: string, f: char -> char): string {
    if s == "" then "" else [f(s[0])] + Map(s[1..], f)
  }

  function KeepOnly(s: string): string {
    if s == "" then ""
    else KeepOnly(s[..|s| - 1]) + (if Kept(s[|s| - 1]) then [s[|s| - 1]] else "")
  }

  function Hyphenate(c: char): char {
    if c == ' ' || c == '_' then '-' else c
  }

  predicate DoubleAt(s: string, i: nat) {
    i + 1 < |s| && s[i] == '-' && s[i + 1] == '-'
  }

  predicate NoDouble(s: string) {
    forall i: nat | i < |s| :: !DoubleAt(s, i)
  }

  /** strings.ReplaceAll(s, "--", "-"): pairs from the left, without overlap. */
  function HalveHyphens(s: string): string {
    if |s| < 2 then s
    else if s[0] == '-' && s[1] == '-' then "-" + HalveHyphens(s[2..])
    else [s[0]] + HalveHyphens(s[1..])
  }

  /** Every run of hyphens becomes one hyphen. */
  function Collapse(s: string): string {
    if |s| < 2 then s
    else if s[0] == '-' && s[1] == '-' then Collapse(s[1..])
    else [s[0]] + Collapse(s[1..])
  }

  function TrimLeft(s: string): string {
    if s != "" && s[0] == '-' then TrimLeft(s[1..]) else s
  }

  function TrimRight(s: string): string {
    if s != "" && s[|s| - 1] == '-' then TrimRight(s[..|s| - 1]) else s
  }

  /** Truncation that does not leave a hyphen at the end. */
  function Cap(s: string, limit: nat): string {
    if |s| > limit then TrimRight(s[..limit]) else s
  }

  // ---- The double-hyphen loop ----

  lemma CollapseCons(c: char, s: string)
    ensures Collapse([c] + s) == if s != "" && c == '-' && s[0] == '-' then Collapse(s) else [c] + Collapse(s)
  {
    assert ([c] + s)[1..] == s;
  }

  lemma {:induction false} HalvingKeepsCollapse(s: string)
    ensures Collapse(HalveHyphens(s)) == Collapse(s)
    ensures s != "" ==> HalveHyphens(s) != "" && HalveHyphens(s)[0] == s[0]
    ensures |HalveHyphens(s)| <= |s| && (|HalveHyphens(s)| == |s| ==> NoDouble(s))
  {
    if |s| >= 2 {
      if s[0] == '-' && s[1] == '-' {
        HalvingKeepsCollapse(s[2..]);
        CollapseCons('-', HalveHyphens(s[2..]));
        CollapseCons('-', s[2..]);
        assert s[1..] == "-" + s[2..];
      } else {
        HalvingKeepsCollapse(s[1..]);
        CollapseCons(s[0], HalveHyphens(s[1..]));
        if |HalveHyphens(s)| == |s| {
          forall i: nat | i < |s| ensures !DoubleAt(s, i) {
            if i > 0 { assert !DoubleAt(s[1..], i - 1); }
          }
        }
      }
    }
  }

  lemma {:induction false} CollapseOfNoDouble(s: string)
    requires NoDouble(s)
    ensures Collapse(s) == s
  {
    if |s| >= 2 {
      assert !DoubleAt(s, 0);
      forall i: nat | i < |s| - 1 ensures !DoubleAt(s[1..], i) {
        assert !DoubleAt(s, i + 1);
      }
      CollapseOfNoDouble(s[1..]);
    }
  }

  /** Whether strings.Contains(s, "--"). */
  method ContainsDouble(s: string) returns (found: bool)
    ensures found <==> !NoDouble(s)
  {
    for i := 0 to |s|
      invariant forall k: nat | k < i :: !DoubleAt(s, k)
    {
      if i + 1 < |s| && s[i] == '-' && s[i + 1] == '-' {
        assert DoubleAt(s, i);
        return true;
      }
    }
    return false;
  }

  /** The loop that halves hyphens until no pair is left: it ends, and it collapses every run. */
  method CollapseLoop(s: string) returns (name: string)
    ensures name == Collapse(s)
  {
    name := s;
    var found := ContainsDouble(name);
    while found
      invariant found <==> !NoDouble(name)
      invariant Collapse(name) == Collapse(s)
      decreases |name|
    {
      HalvingKeepsCollapse(name);
      name := HalveHyphens(name);
      found := ContainsDouble(name);
    }
    CollapseOfNoDouble(name);
  }

  // ---- Properties of the pieces ----

  predicate AllKept(s: string) {
    forall i | 0 <= i < |s| :: Kept(s[i])
  }

  lemma {:induction false} KeepOnlyKeeps(s: string)
    ensures AllKept(KeepOnly(s))
    ensures AllKept(s) ==> KeepOnly(s) == s
  {
    if s != "" { KeepOnlyKeeps(s[..|s| - 1]); }
  }

  lemma {:induction false} CollapseIsTight(s: string)
    ensures NoDouble(Collapse(s)) && (AllKept(s) ==> AllKept(Collapse(s)))
    ensures s != "" ==> Collapse(s) != "" && Collapse(s)[0] == s[0]
  {
    if |s| >= 2 {
      CollapseIsTight(s[1..]);
      var rest := Collapse(s[1..]);
      if !(s[0] == '-' && s[1] == '-') {
        forall i: nat | i < |Collapse(s)| ensures !DoubleAt(Collapse(s), i) {
          if i > 0 { assert !DoubleAt(rest, i - 1); }
        }
      }
    }
  }

  lemma {:induction false} TrimLeftIsSuffix(s: string) returns (k: nat)
    ensures k <= |s| && TrimLeft(s) == s[k..] && (TrimLeft(s) != "" ==> TrimLeft(s)[0] != '-')
    ensures forall i | 0 <= i < k :: s[i] == '-'
  {
    if s != "" && s[0] == '-' {
      var j := TrimLeftIsSuffix(s[1..]);
      k := j + 1;
      assert s[1..][j..] == s[k..];
      assert forall i | 0 < i < k :: s[i] == s[1..][i - 1];
    } else {
      k := 0;
      assert s[0..] == s;
    }
  }

  lemma {:induction false} TrimRightIsPrefix(s: string) returns (k: nat)
    ensures k <= |s| && TrimRight(s) == s[..k] && (k > 0 ==> s[k - 1] != '-')
    ensures forall i | k <= i < |s| :: s[i] == '-'
  {
    if s != "" && s[|s| - 1] == '-' {
      k := TrimRightIsPrefix(s[..|s| - 1]);
      assert s[..|s| - 1][..k] == s[..k];
      assert forall i | k <= i < |s| - 1 :: s[i] == s[..|s| - 1][i];
    } else {
      k := |s|;
      assert s[..k] == s;
    }
  }

  /** The normal form of a generated name. */
  predicate Normal(s: string, limit: nat) {
    && AllKept(s) && NoDouble(s) && |s| <= limit
    && (s != "" ==> s[0] != '-' && s[|s| - 1] != '-')
  }

  lemma SliceStaysTight(s: string, i: nat, j: nat)
    requires i <= j <= |s| && AllKept(s) && NoDouble(s)
    ensures AllKept(s[i..j]) && NoDouble(s[i..j])
  {
    forall k: nat | k < j - i ensures !DoubleAt(s[i..j], k) {
      assert !DoubleAt(s, i + k);
    }
  }

  /** Trimming both ends and capping a tight string gives the normal form. */
  lemma FinishIsNormal(s: string, limit: nat)
    requires AllKept(s) && NoDouble(s)
    ensures Normal(Cap(TrimRight(TrimLeft(s)), limit), limit)
  {
    var k := TrimLeftIsSuffix(s);
    SliceStaysTight(s, k, |s|);
    assert s[k..|s|] == s[k..];
    var a := TrimLeft(s);
    var m := TrimRightIsPrefix(a);
    SliceStaysTight(a, 0, m);
    assert a[0..m] == a[..m];
    var b := TrimRight(a);
    if |b| > limit {
      var c := b[..limit];
      SliceStaysTight(b, 0, limit);
      assert b[0..limit] == c;
      var n := TrimRightIsPrefix(c);
      SliceStaysTight(c, 0, n);
      assert c[0..n] == c[..n];
    }
  }

  // ---- sanitizeBranchName ----

  function Sanitized(name: string, lower: char -> char): string {
    Cap(TrimRight(TrimLeft(Collapse(KeepOnly(Map(Map(name, lower), Hyphenate))))), MAX_GENERATED)
  }

  method SanitizeBranchName(input: string, lower: char -> char) returns (name: string)
    ensures name == Sanitized(input, lower)
  {
    name := Map(input, lower);
    name := Map(name, Hyphenate);
    var result := "";
    for i := 0 to |name|
      invariant result == KeepOnly(name[..i])
    {
      assert name[..i + 1][..i] == name[..i];
      if ('a' <= name[i] <= 'z') || ('0' <= name[i] <= '9') || name[i] == '-' {
        result := result + [name[i]];
      }
    }
    assert name[..|name|] == name;
    name := CollapseLoop(result);
    name := TrimRight(TrimLeft(name));
    if |name| > MAX_GENERATED {
      name := name[..MAX_GENERATED];
      name := TrimRight(name);
    }
  }

  lemma {:induction false} MapFixes(s: string, f: char -> char)
    requires forall i | 0 <= i < |s| :: f(s[i]) == s[i]
    ensures Map(s, f) == s
  {
    if s != "" { MapFixes(s[1..], f); }
  }

  lemma NormalNamesAreFixed(name: string, lower: char -> char)
    requires LowersCase(lower) && Normal(name, MAX_GENERATED)
    ensures Sanitized(name, lower) == name
  {
    MapFixes(name, lower);
    MapFixes(name, Hyphenate);
    KeepOnlyKeeps(name);
    CollapseOfNoDouble(name);
  }

  /** Every sanitized name is in normal form, and the names in normal form are exactly those left alone. */
  lemma SanitizedIsNormalForm(name: string, lower: char -> char)
    requires LowersCase(lower)
    ensures Normal(Sanitized(name, lower), MAX_GENERATED)
    ensures Sanitized(name, lower) == name <==> Normal(name, MAX_GENERATED)
  {
    hide Map, KeepOnly, Collapse, TrimLeft, TrimRight, Cap, LowersCase, Normal, NoDouble, AllKept;
    var kept := KeepOnly(Map(Map(name, lower), Hyphenate));
    KeepOnlyKeeps(Map(Map(name, lower), Hyphenate));
    CollapseIsTight(kept);
    FinishIsNormal(Collapse(kept), MAX_GENERATED);
    if Normal(name, MAX_GENERATED) {
      NormalNamesAreFixed(name, lower);
    }
  }

  lemma SanitizingIsIdempotent(name: string, lower: char -> char)
    requires LowersCase(lower)
    ensures Sanitized(Sanitized(name, lower), lower) == Sanitized(name, lower)
  {
    SanitizedIsNormalForm(name, lower);
    SanitizedIsNormalForm(Sanitized(name, lower), lower);
  }

  // ---- What a sanitized name keeps of the input ----

  /** The letters and digits of a string, in order. */
  function Letters(s: string): string {
    if s == "" then "" else (if Alphanumeric(s[0]) then [s[0]] else "") + Letters(s[1..])
  }

  lemma {:induction false} LettersAppend(a: string, b: string)
    ensures Letters(a + b) == Letters(a) + Letters(b)
  {
    if a == "" {
      assert a + b == b;
    } else {
      var first := if Alphanumeric(a[0]) then [a[0]] else "";
      assert (a + b)[1..] == a[1..] + b && (a + b)[0] == a[0];
      LettersAppend(a[1..], b);
      assert first + (Letters(a[1..]) + Letters(b)) == (first + Letters(a[1..])) + Letters(b);
    }
  }

  lemma {:induction false} KeepOnlyKeepsLetters(s: string)
    ensures Letters(KeepOnly(s)) == Letters(s)
  {
    if s != "" {
      var init, last := s[..|s| - 1], [s[|s| - 1]];
      assert s == init + last;
      KeepOnlyKeepsLetters(init);
      LettersAppend(init, last);
      LettersAppend(KeepOnly(init), if Kept(last[0]) then last else "");
    }
  }

  lemma {:induction false} HyphenateKeepsLetters(s: string)
    ensures Letters(Map(s, Hyphenate)) == Letters(s)
  {
    if s != "" { HyphenateKeepsLetters(s[1..]); }
  }

  lemma {:induction false} CollapseKeepsLetters(s: string)
    ensures Letters(Collapse(s)) == Letters(s)
  {
    if |s| >= 2 {
      CollapseKeepsLetters(s[1..]);
      assert ([s[0]] + Collapse(s[1..]))[1..] == Collapse(s[1..]);
    }
  }

  lemma {:induction false} TrimLeftKeepsLetters(s: string)
    ensures Letters(TrimLeft(s)) == Letters(s)
  {
    if s != "" && s[0] == '-' { TrimLeftKeepsLetters(s[1..]); }
  }

  lemma {:induction false} TrimRightKeepsLetters(s: string)
    ensures Letters(TrimRight(s)) == Letters(s)
  {
    if s != "" && s[|s| - 1] == '-' {
      TrimRightKeepsLetters(s[..|s| - 1]);
      assert s == s[..|s| - 1] + "-";
      LettersAppend(s[..|s| - 1], "-");
    }
  }

  lemma CapKeepsLetters(s: string, limit: nat)
    ensures Letters(Cap(s, limit)) <= Letters(s)
    ensures |s| <= limit ==> Letters(Cap(s, limit)) == Letters(s)
  {
    if |s| > limit {
      TrimRightKeepsLetters(s[..limit]);
      assert s == s[..limit] + s[limit..];
      LettersAppend(s[..limit], s[limit..]);
    }
  }

  /**
   The letters and digits of the lower-cased input survive in order, up to the truncation; without
   truncation all of them do.
   */
  lemma SanitizingKeepsLetters(name: string, lower: char -> char)
    ensures Letters(Sanitized(name, lower)) <= Letters(Map(name, lower))
    ensures |name| <= MAX_GENERATED ==> Letters(Sanitized(name, lower)) == Letters(Map(name, lower))
  {
    var a := Map(Map(name, lower), Hyphenate);
    var b := Collapse(KeepOnly(a));
    HyphenateKeepsLetters(Map(name, lower));
    KeepOnlyKeepsLetters(a);
    CollapseKeepsLetters(KeepOnly(a));
    TrimLeftKeepsLetters(b);
    TrimRightKeepsLetters(TrimLeft(b));
    CapKeepsLetters(TrimRight(TrimLeft(b)), MAX_GENERATED);
    MapLength(name, lower);
    MapLength(Map(name, lower), Hyphenate);
    LengthsShrink(a);
  }

  lemma {:induction false} MapLength(s: string, f: char -> char)
    ensures |Map(s, f)| == |s|
  {
    if s != "" { MapLength(s[1..], f); }
  }

  lemma {:induction false} KeepOnlyLength(s: string)
    ensures |KeepOnly(s)| <= |s|
  {
    if s != "" { KeepOnlyLength(s[..|s| - 1]); }
  }

  lemma {:induction false} CollapseLength(s: string)
    ensures |Collapse(s)| <= |s|
  {
    if |s| >= 2 { CollapseLength(s[1..]); }
  }

  lemma LengthsShrink(s: string)
    ensures |TrimRight(TrimLeft(Collapse(KeepOnly(s))))| <= |s|
  {
    KeepOnlyLength(s);
    CollapseLength(KeepOnly(s));
    var k := TrimLeftIsSuffix(Collapse(KeepOnly(s)));
    var m := TrimRightIsPrefix(TrimLeft(Collapse(KeepOnly(s))));
  }

  // ---- A sanitized name, word by word ----

  predicate Separator(c: char) {
    c == '-' || c == '_' || c == ' '
  }

  /** The words of a text: runs of letters and digits between separators; other characters vanish. */
  function Words(s: string, begun: string): seq<string> {
    if s == "" then Finished(begun)
    else if Alphanumeric(s[0]) then Words(s[1..], begun + [s[0]])
    else if Separator(s[0]) then Finished(begun) + Words(s[1..], "")
    else Words(s[1..], begun)
  }

  function Finished(begun: string): seq<string> {
    if begun == "" then [] else [begun]
  }

  function Hyphenated(words: seq<string>): string {
    if words == [] then ""
    else if |words| == 1 then words[0]
    else words[0] + "-" + Hyphenated(words[1..])
  }

  /** The classes by their codes: letters and digits, and the separators, of which only the hyphen is kept. */
  lemma CharacterClasses(c: char)
    ensures Alphanumeric(c) <==> 97 <= c as int <= 122 || 48 <= c as int <= 57
    ensures Separator(c) <==> c as int in {32, 45, 95}
    ensures Kept(c) <==> Alphanumeric(c) || c as int == 45
    ensures Hyphenate(c) as int == if Separator(c) then 45 else c as int
  {
  }

  lemma {:induction false} KeepOnlyCons(c: char, s: string)
    ensures KeepOnly([c] + s) == (if Kept(c) then [c] else "") + KeepOnly(s)
  {
    if s == "" {
      assert [c] + s == [c] && [c][..0] == "";
    } else {
      var n := |s| - 1;
      assert ([c] + s)[..n + 1] == [c] + s[..n];
      KeepOnlyCons(c, s[..n]);
    }
  }

  lemma WordsCons(c: char, s: string, begun: string)
    ensures Words([c] + s, begun)
            == if Alphanumeric(c) then Words(s, begun + [c])
               else if Separator(c) then Finished(begun) + Words(s, "") else Words(s, begun)
  {
    assert ([c] + s)[1..] == s;
  }

  lemma {:induction false} KeepingKeepsWords(s: string, begun: string)
    ensures Words(KeepOnly(Map(s, Hyphenate)), begun) == Words(s, begun)
    decreases |s|
  {
    if s != "" {
      var c, rest := Hyphenate(s[0]), KeepOnly(Map(s[1..], Hyphenate));
      CharacterClasses(s[0]);
      KeepOnlyCons(c, Map(s[1..], Hyphenate));
      hide KeepOnly;
      WordsCons(c, rest, begun);
      assert "" + rest == rest;
      KeepingKeepsWords(s[1..], begun);
      KeepingKeepsWords(s[1..], "");
      KeepingKeepsWords(s[1..], begun + [s[0]]);
    }
  }

  lemma {:induction false} CollapsingKeepsWords(s: string, begun: string)
    ensures Words(Collapse(s), begun) == Words(s, begun)
    decreases |s|
  {
    if |s| >= 2 {
      if s[0] == '-' && s[1] == '-' {
        CollapsingKeepsWords(s[1..], begun);
        assert Finished(begun) + ([] + Words(s[2..], "")) == Finished(begun) + Words(s[2..], "");
        assert s[1..][1..] == s[2..];
      } else {
        WordsCons(s[0], Collapse(s[1..]), begun);
        CollapsingKeepsWords(s[1..], begun);
        CollapsingKeepsWords(s[1..], "");
        CollapsingKeepsWords(s[1..], begun + [s[0]]);
      }
    }
  }

  lemma {:induction false} TrimLeftKeepsWords(s: string)
    ensures Words(TrimLeft(s), "") == Words(s, "")
  {
    if s != "" && s[0] == '-' {
      TrimLeftKeepsWords(s[1..]);
      WordsCons('-', s[1..], "");
      hide Words;
      assert ['-'] + s[1..] == s && [] + Words(s[1..], "") == Words(s[1..], "");
    }
  }

  lemma {:induction false} LastHyphenKeepsWords(s: string, begun: string)
    ensures Words(s + "-", begun) == Words(s, begun)
    decreases |s|
  {
    if s == "" {
      assert s + "-" == "-" && "-"[1..] == "";
    } else {
      assert (s + "-")[1..] == s[1..] + "-" && (s + "-")[0] == s[0];
      LastHyphenKeepsWords(s[1..], begun);
      LastHyphenKeepsWords(s[1..], "");
      LastHyphenKeepsWords(s[1..], begun + [s[0]]);
    }
  }

  lemma {:induction false} TrimRightKeepsWords(s: string)
    ensures Words(TrimRight(s), "") == Words(s, "")
  {
    if s != "" && s[|s| - 1] == '-' {
      TrimRightKeepsWords(s[..|s| - 1]);
      LastHyphenKeepsWords(s[..|s| - 1], "");
      assert s == s[..|s| - 1] + "-";
    }
  }

  /** A tight name consists of its words with single hyphens between them. */
  lemma {:induction false} TightIsHyphenated(t: string, begun: string)
    requires AllKept(t) && NoDouble(t) && (t != "" ==> t[|t| - 1] != '-')
    requires begun == "" && t != "" ==> t[0] != '-'
    ensures Hyphenated(Words(t, begun)) == begun + t
    decreases |t|
  {
    if t != "" {
      CharacterClasses(t[0]);
      SliceStaysTight(t, 1, |t|);
      assert t[1..|t|] == t[1..] && t == [t[0]] + t[1..];
      if Alphanumeric(t[0]) {
        TightIsHyphenated(t[1..], begun + [t[0]]);
        assert begun + [t[0]] + t[1..] == begun + t;
      } else {
        assert !DoubleAt(t, 0);
        TightIsHyphenated(t[1..], "");
        var rest := Words(t[1..], "");
        assert "" + t[1..] == t[1..] && ([begun] + rest)[1..] == rest;
        assert begun + "-" + t[1..] == begun + t;
      }
    } else {
      assert begun + t == begun;
    }
  }

  function Tight(s: string): string {
    TrimRight(TrimLeft(Collapse(s)))
  }

  lemma TightIsTight(s: string)
    requires AllKept(s)
    ensures Normal(Tight(s), |Tight(s)|)
  {
    CollapseIsTight(s);
    FinishIsNormal(Collapse(s), |Tight(s)|);
  }

  lemma TightIsWords(s: string)
    requires AllKept(s)
    ensures Tight(s) == Hyphenated(Words(s, ""))
  {
    TightIsTight(s);
    TightIsHyphenated(Tight(s), "");
    assert "" + Tight(s) == Tight(s);
    CollapsingKeepsWords(s, "");
    TrimLeftKeepsWords(Collapse(s));
    TrimRightKeepsWords(TrimLeft(Collapse(s)));
  }

  /** A tight name that is too long is cut at the limit, or one earlier where that would leave a hyphen. */
  lemma CapCutsOnce(s: string, limit: nat)
    requires NoDouble(s) && limit > 1
    ensures Cap(s, limit) == if |s| <= limit then s
                             else if s[limit - 1] == '-' then s[..limit - 1] else s[..limit]
  {
    if |s| > limit && s[limit - 1] == '-' {
      assert !DoubleAt(s, limit - 2);
      var t := s[..limit - 1];
      assert s[..limit][..limit - 1] == t && t[limit - 2] != '-';
      assert TrimRight(t) == t;
    }
  }

  /** Words joined by single hyphens and cut at a limit, without a hyphen at the end. */
  function Cut(joined: string, limit: nat): string
    requires limit > 0
  {
    if |joined| <= limit then joined
    else if joined[limit - 1] == '-' then joined[..limit - 1] else joined[..limit]
  }

  lemma CappedIsCut(s: string, limit: nat)
    requires AllKept(s) && limit > 1
    ensures Cap(Tight(s), limit) == Cut(Hyphenated(Words(s, "")), limit)
  {
    TightIsTight(s);
    TightIsWords(s);
    CapCutsOnce(Tight(s), limit);
  }

  /** The words of the lower-cased input, joined by single hyphens and cut at fifty characters. */
  lemma SanitizedIsWords(name: string, lower: char -> char)
    ensures Sanitized(name, lower) == Cut(Hyphenated(Words(Map(name, lower), "")), 50)
  {
    hide Map, KeepOnly, Collapse, TrimLeft, TrimRight, Cap, Words, Hyphenated, Cut, AllKept;
    var a := Map(Map(name, lower), Hyphenate);
    KeepOnlyKeeps(a);
    CappedIsCut(KeepOnly(a), 50);
    KeepingKeepsWords(Map(name, lower), "");
  }

  // ---- ValidateBranchName ----

  datatype Verdict = Valid | TooLong | LeadingHyphen | LockSuffix | DoubleDot | BadCharacter

  predicate NameChar(c: char) {
    Alphanumeric(c) || 'A' <= c <= 'Z' || c in "/_.-"
  }

  predicate FirstChar(c: char) {
    Alphanumeric(c) || 'A' <= c <= 'Z'
  }

  function Validate(branch: string): Verdict {
    if branch == "" then Valid
    else if |branch| > MAX_VALIDATED then TooLong
    else if branch[0] == '-' then LeadingHyphen
    else if |branch| >= 5 && branch[|branch| - 5..] == ".lock" then LockSuffix
    else if exists i | 0 <= i < |branch| - 1 :: branch[i] == '.' && branch[i + 1] == '.' then DoubleDot
    else if !FirstChar(branch[0]) || exists i | 0 <= i < |branch| :: !NameChar(branch[i]) then BadCharacter
    else Valid
  }

  /** A non-empty name is valid exactly when nothing is wrong with it. */
  lemma ValidExactlyWhen(branch: string)
    requires branch != ""
    ensures Validate(branch) == Valid
            <==> && |branch| <= 100
                 && (forall i | 0 <= i < |branch| :: NameCode(branch[i] as int))
                 && branch[0] as int !in {45, 46, 47, 95}
                 && (forall i | 0 <= i < |branch| - 1 :: !(branch[i] == '.' && branch[i + 1] == '.'))
                 && !(|branch| >= 5 && branch[|branch| - 5..] == ".lock")
  {
    forall i | 0 <= i < |branch| ensures NameChar(branch[i]) <==> NameCode(branch[i] as int) {
      NameCharacters(branch[i]);
    }
    NameCharacters(branch[0]);
  }

  /** The characters of a name by their codes: digits, letters, and the hyphen, dot, slash and underscore. */
  predicate NameCode(n: int) {
    48 <= n <= 57 || 65 <= n <= 90 || 97 <= n <= 122 || n in {45, 46, 47, 95}
  }

  lemma NameCharacters(c: char)
    ensures NameChar(c) <==> NameCode(c as int)
    ensures FirstChar(c) <==> NameCode(c as int) && c as int !in {45, 46, 47, 95}
  {
  }

  /** Names made of kept characters that do not begin with a hyphen are valid up to the length limit. */
  lemma KeptNamesAreValid(s: string)
    requires AllKept(s) && |s| <= MAX_VALIDATED && (s != "" ==> s[0] != '-')
    ensures Validate(s) == Valid
  {
    if |s| >= 5 {
      assert s[|s| - 5..][0] == s[|s| - 5] && Kept(s[|s| - 5]);
    }
  }

  lemma SanitizedNamesAreValid(name: string, lower: char -> char)
    requires LowersCase(lower)
    ensures Validate(Sanitized(name, lower)) == Valid
  {
    SanitizedIsNormalForm(name, lower);
    KeptNamesAreValid(Sanitized(name, lower));
  }

  // ---- Asana task names ----

  /** Replacement of each maximal run of other characters by one hyphen. */
  function Slugify(s: string): string {
    if s == "" then ""
    else if Alphanumeric(s[0]) then [s[0]] + Slugify(s[1..])
    else if |s| > 1 && !Alphanumeric(s[1]) then Slugify(s[1..])
    else "-" + Slugify(s[1..])
  }

  function SlugChar(c: char): char {
    if Alphanumeric(c) then c else '-'
  }

  /** Replacing runs is replacing single characters and then collapsing hyphens. */
  lemma {:induction false} SlugifyIsCollapse(s: string)
    ensures Slugify(s) == Collapse(Map(s, SlugChar))
    ensures AllKept(Map(s, SlugChar)) && |Map(s, SlugChar)| == |s|
    ensures s != "" ==> Map(s, SlugChar)[0] == SlugChar(s[0])
  {
    if s != "" {
      SlugifyIsCollapse(s[1..]);
      CollapseCons(SlugChar(s[0]), Map(s[1..], SlugChar));
    }
  }

  function TaskSlug(title: string, lower: char -> char): string {
    Cap(TrimRight(TrimLeft(Slugify(Map(title, lower)))), MAX_SLUG)
  }

  function TaskBranch(title: string, id: string, lower: char -> char): string {
    "task-" + (if TaskSlug(title, lower) == "" then id else TaskSlug(title, lower))
  }

  /** A slug is the words of the title, taken at every other character and joined by hyphens, cut at forty. */
  lemma TaskSlugIsWords(title: string, lower: char -> char)
    ensures TaskSlug(title, lower) == Cut(Hyphenated(Words(Map(Map(title, lower), SlugChar), "")), 40)
  {
    hide Map, Collapse, TrimLeft, TrimRight, Cap, Words, Hyphenated, Cut, AllKept, Slugify;
    SlugifyIsCollapse(Map(title, lower));
    CappedIsCut(Map(Map(title, lower), SlugChar), 40);
  }

  /** A title without words leaves no slug, and then the task's own id stands in for it. */
  lemma {:induction false} NoWordsNoSlug(title: string, id: string, lower: char -> char)
    ensures TaskSlug(title, lower) == "" <==> Hyphenated(Words(Map(Map(title, lower), SlugChar), "")) == ""
    ensures TaskSlug(title, lower) == "" ==> TaskBranch(title, id, lower) == "task-" + id
  {
    hide Map, Words, Hyphenated;
    TaskSlugIsWords(title, lower);
  }

  /** A task name with a non-empty slug is valid, tight and at most 45 characters long. */
  lemma TaskBranchIsValid(title: string, id: string, lower: char -> char)
    requires TaskSlug(title, lower) != ""
    ensures Validate(TaskBranch(title, id, lower)) == Valid
    ensures Normal(TaskBranch(title, id, lower), MAX_SLUG + 5)
    ensures TaskBranch(title, id, lower)[..5] == "task-" && TaskBranch(title, id, lower)[5..] == TaskSlug(title, lower)
  {
    var slug, name := TaskSlug(title, lower), TaskBranch(title, id, lower);
    SlugifyIsCollapse(Map(title, lower));
    CollapseIsTight(Map(Map(title, lower), SlugChar));
    FinishIsNormal(Slugify(Map(title, lower)), MAX_SLUG);
    assert forall i | 5 <= i < |name| :: name[i] == slug[i - 5];
    forall i: nat | i < |name| ensures !DoubleAt(name, i) {
      if i >= 5 { assert !DoubleAt(slug, i - 5); }
    }
    KeptNamesAreValid(name);
  }
}
