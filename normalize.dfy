/** The text normalisation of the reply engine (app/bot.server.ts:113-120):
    lower-case, canonical decomposition (NFD), removal of the combining
    diacritical marks U+0300-U+036F, removal of every character that is
    neither a word character nor white space, collapsing of white-space runs
    into one space, and trimming.

    Lower-casing is modelled for ASCII and Latin-1 letters, decomposition for
    the Latin-1 letters that have a canonical decomposition; every other
    character is left as it is by both steps. */
module TextNormalize {

  /** What `\s` matches in a JavaScript regular expression (and what `trim`
      removes). */
  predicate IsJsSpace(c: char)
  {
    c == '\t' || c == '\n' || c == '\U{000B}' || c == '\U{000C}' || c == '\r' || c == ' '
    || c == '\U{00A0}' || c == '\U{1680}' || ('\U{2000}' <= c <= '\U{200A}')
    || c == '\U{2028}' || c == '\U{2029}' || c == '\U{202F}' || c == '\U{205F}'
    || c == '\U{3000}' || c == '\U{FEFF}'
  }

  /** What `\w` matches without the `u` flag (the `i` flag does not widen it). */
  predicate IsWordChar(c: char)
  {
    ('a' <= c <= 'z') || ('A' <= c <= 'Z') || ('0' <= c <= '9') || c == '_'
  }

  /** A combining diacritical mark, the range the second `replace` removes. */
  predicate IsCombiningMark(c: char)
  {
    '\U{0300}' <= c <= '\U{036F}'
  }

  /** A character a normalised text may contain. */
  predicate IsNormalChar(c: char)
  {
    ('a' <= c <= 'z') || ('0' <= c <= '9') || c == '_' || c == ' '
  }

  predicate IsUpperLetter(c: char)
  {
    ('A' <= c <= 'Z') || ('\U{00C0}' <= c <= '\U{00DE}' && c != '\U{00D7}')
  }

  /** `toLowerCase` on one character. */
  function LowerChar(c: char): char
  {
    if IsUpperLetter(c) then (c as int + 32) as char else c
  }

  /** The canonical decompositions of the lower-case Latin-1 letters. */
  const NfdTable: map<char, string> := map[
    'à' := "a\U{0300}", 'á' := "a\U{0301}", 'â' := "a\U{0302}", 'ã' := "a\U{0303}",
    'ä' := "a\U{0308}", 'å' := "a\U{030A}", 'ç' := "c\U{0327}", 'è' := "e\U{0300}",
    'é' := "e\U{0301}", 'ê' := "e\U{0302}", 'ë' := "e\U{0308}", 'ì' := "i\U{0300}",
    'í' := "i\U{0301}", 'î' := "i\U{0302}", 'ï' := "i\U{0308}", 'ñ' := "n\U{0303}",
    'ò' := "o\U{0300}", 'ó' := "o\U{0301}", 'ô' := "o\U{0302}", 'õ' := "o\U{0303}",
    'ö' := "o\U{0308}", 'ù' := "u\U{0300}", 'ú' := "u\U{0301}", 'û' := "u\U{0302}",
    'ü' := "u\U{0308}", 'ý' := "y\U{0301}", 'ÿ' := "y\U{0308}"]

  /** `normalize("NFD")` on one character. */
  function NfdChar(c: char): (r: string)
    ensures forall k :: 0 <= k < |r| ==> !('A' <= r[k] <= 'Z') || r[k] == c
  {
    if c in NfdTable then NfdTable[c] else [c]
  }

  function ToLower(s: string): (r: string)
    ensures |r| == |s|
    ensures forall k :: 0 <= k < |r| ==> r[k] == LowerChar(s[k])
  {
    seq(|s|, k requires 0 <= k < |s| => LowerChar(s[k]))
  }

  function Decompose(s: string): string
    decreases |s|
  {
    if |s| == 0 then "" else NfdChar(s[0]) + Decompose(s[1..])
  }

  /** The characters of `s` that satisfy `keep`, in order (a global `replace`
      of a character class with the empty string). */
  function KeepIf(s: string, keep: char -> bool): (r: string)
    ensures |r| <= |s|
    ensures forall k :: 0 <= k < |r| ==> keep(r[k])
    decreases |s|
  {
    if |s| == 0 then ""
    else (if keep(s[0]) then [s[0]] else "") + KeepIf(s[1..], keep)
  }

  /** What holds of every character of `s` holds of every character kept. */
  lemma {:induction false} KeepIfFrom(s: string, keep: char -> bool, p: char -> bool)
    requires forall k :: 0 <= k < |s| ==> p(s[k])
    ensures forall k :: 0 <= k < |KeepIf(s, keep)| ==> p(KeepIf(s, keep)[k])
    decreases |s|
  {
    if |s| > 0 {
      KeepIfFrom(s[1..], keep, p);
      var h := if keep(s[0]) then [s[0]] else "";
      var t := KeepIf(s[1..], keep);
      assert KeepIf(s, keep) == h + t;
      forall k | 0 <= k < |h + t| ensures p((h + t)[k]) {
        if k < |h| { assert (h + t)[k] == s[0]; } else { assert (h + t)[k] == t[k - |h|]; }
      }
    }
  }

  function StripMarks(s: string): string
  {
    KeepIf(s, c => !IsCombiningMark(c))
  }

  function StripNonWord(s: string): string
  {
    KeepIf(s, c => IsWordChar(c) || IsJsSpace(c))
  }

  /** `s` without its leading white space (`trimStart`). */
  function DropSpaces(s: string): (r: string)
    ensures |r| <= |s| && r == s[|s| - |r|..]
    ensures forall k :: 0 <= k < |s| - |r| ==> IsJsSpace(s[k])
    ensures |r| > 0 ==> !IsJsSpace(r[0])
    decreases |s|
  {
    if |s| > 0 && IsJsSpace(s[0]) then DropSpaces(s[1..]) else s
  }

  /** `s` without its trailing white space (`trimEnd`). */
  function DropTrailingSpaces(s: string): (r: string)
    ensures |r| <= |s| && r == s[..|r|]
    ensures forall k :: |r| <= k < |s| ==> IsJsSpace(s[k])
    ensures |r| > 0 ==> !IsJsSpace(r[|r| - 1])
    decreases |s|
  {
    if |s| > 0 && IsJsSpace(s[|s| - 1]) then DropTrailingSpaces(s[..|s| - 1]) else s
  }

  /** `replace(/\s+/g, " ")`: every maximal run of white space becomes one
      space. */
  function Collapse(s: string): string
    decreases |s|
  {
    if |s| == 0 then ""
    else if IsJsSpace(s[0]) then
      assert |DropSpaces(s[1..])| < |s|;
      " " + Collapse(DropSpaces(s[1..]))
    else [s[0]] + Collapse(s[1..])
  }

  function Trim(s: string): string
  {
    DropTrailingSpaces(DropSpaces(s))
  }

  /** The `normalize` arrow of `sendBotMessage`. */
  function Normalize(s: string): string
  {
    Trim(Collapse(StripNonWord(StripMarks(Decompose(ToLower(s))))))
  }

  /** Only lower-case letters, digits, `_` and single inner spaces. */
  predicate NormalForm(s: string)
  {
    && (forall k :: 0 <= k < |s| ==> IsNormalChar(s[k]))
    && (|s| > 0 ==> s[0] != ' ' && s[|s| - 1] != ' ')
    && (forall k :: 0 <= k < |s| - 1 ==> s[k] == ' ' ==> s[k + 1] != ' ')
  }

  // ---- what each stage leaves behind ----

  predicate NoAsciiUpper(s: string)
  {
    forall k :: 0 <= k < |s| ==> !('A' <= s[k] <= 'Z')
  }

  lemma {:induction false} DecomposeKeepsNoUpper(s: string)
    requires NoAsciiUpper(s)
    ensures NoAsciiUpper(Decompose(s))
    decreases |s|
  {
    if |s| > 0 {
      DecomposeKeepsNoUpper(s[1..]);
      var h, t := NfdChar(s[0]), Decompose(s[1..]);
      assert Decompose(s) == h + t;
      forall k | 0 <= k < |h + t| ensures !('A' <= (h + t)[k] <= 'Z') {
        if k < |h| { assert (h + t)[k] == h[k]; } else { assert (h + t)[k] == t[k - |h|]; }
      }
    }
  }

  /** An input of `Collapse`: lower-case word characters and white space. */
  predicate IsCollapseInput(c: char)
  {
    ('a' <= c <= 'z') || ('0' <= c <= '9') || c == '_' || IsJsSpace(c)
  }

  lemma {:induction false} CollapseShape(s: string)
    requires forall k :: 0 <= k < |s| ==> IsCollapseInput(s[k])
    ensures var r := Collapse(s);
      && (forall k :: 0 <= k < |r| ==> IsNormalChar(r[k]))
      && (forall k :: 0 <= k < |r| - 1 ==> r[k] == ' ' ==> r[k + 1] != ' ')
      && (|r| > 0 <==> |s| > 0)
      && (|r| > 0 ==> (r[0] == ' ' <==> IsJsSpace(s[0])))
    decreases |s|
  {
    if |s| > 0 {
      var r := Collapse(s);
      if IsJsSpace(s[0]) {
        var t := DropSpaces(s[1..]);
        assert forall k :: 0 <= k < |t| ==> t[k] == s[1..][|s[1..]| - |t| + k];
        CollapseShape(t);
        var c := Collapse(t);
        assert r == " " + c;
        forall k | 0 <= k < |r| - 1 && r[k] == ' ' ensures r[k + 1] != ' ' {
          if k == 0 {
            assert r[1] == c[0];
            assert !IsJsSpace(t[0]);
          } else {
            assert r[k] == c[k - 1] && r[k + 1] == c[k];
          }
        }
        forall k | 0 <= k < |r| ensures IsNormalChar(r[k]) {
          if k > 0 { assert r[k] == c[k - 1]; }
        }
      } else {
        CollapseShape(s[1..]);
        var c := Collapse(s[1..]);
        assert r == [s[0]] + c;
        forall k | 0 <= k < |r| - 1 && r[k] == ' ' ensures r[k + 1] != ' ' {
          assert k > 0;
          assert r[k] == c[k - 1] && r[k + 1] == c[k];
        }
        forall k | 0 <= k < |r| ensures IsNormalChar(r[k]) {
          if k > 0 { assert r[k] == c[k - 1]; }
        }
      }
    }
  }

  lemma StripShape(d: string)
    requires NoAsciiUpper(d)
    ensures forall k :: 0 <= k < |StripNonWord(StripMarks(d))| ==> IsCollapseInput(StripNonWord(StripMarks(d))[k])
  {
    var notUpper := (c: char) => !('A' <= c <= 'Z');
    KeepIfFrom(d, c => !IsCombiningMark(c), notUpper);
    var m := StripMarks(d);
    KeepIfFrom(m, c => IsWordChar(c) || IsJsSpace(c), notUpper);
    var w := StripNonWord(m);
    assert forall k :: 0 <= k < |w| ==> notUpper(w[k]) && (IsWordChar(w[k]) || IsJsSpace(w[k]));
  }

  /** Normal characters and no two spaces in a row. */
  predicate SingleSpaced(s: string)
  {
    && (forall k :: 0 <= k < |s| ==> IsNormalChar(s[k]))
    && (forall k :: 0 <= k < |s| - 1 ==> s[k] == ' ' ==> s[k + 1] != ' ')
  }

  lemma SliceSingleSpaced(s: string, i: nat, j: nat)
    requires SingleSpaced(s) && i <= j <= |s|
    ensures SingleSpaced(s[i..j])
  {
    var t := s[i..j];
    assert forall k :: 0 <= k < |t| ==> t[k] == s[i + k];
  }

  lemma TrimShape(c: string)
    requires SingleSpaced(c)
    ensures NormalForm(Trim(c))
  {
    var a := DropSpaces(c);
    SliceSingleSpaced(c, |c| - |a|, |c|);
    var r := DropTrailingSpaces(a);
    SliceSingleSpaced(a, 0, |r|);
    assert |r| > 0 ==> r[0] == a[0];
  }

  /** Everything `Normalize` returns is in normal form: only `[a-z0-9_]` and
      single spaces, none at either end. */
  lemma NormalizeInNormalForm(s: string)
    ensures NormalForm(Normalize(s))
  {
    var d := Decompose(ToLower(s));
    DecomposeKeepsNoUpper(ToLower(s));
    StripShape(d);
    var w := StripNonWord(StripMarks(d));
    CollapseShape(w);
    TrimShape(Collapse(w));
  }

  // ---- a normal-form text passes every stage unchanged ----

  lemma {:induction false} DecomposeNormal(s: string)
    requires forall k :: 0 <= k < |s| ==> IsNormalChar(s[k])
    ensures Decompose(s) == s
    decreases |s|
  {
    if |s| > 0 {
      assert s[0] !in NfdTable;
      DecomposeNormal(s[1..]);
      assert s == [s[0]] + s[1..];
    }
  }

  lemma {:induction false} KeepIfAll(s: string, keep: char -> bool)
    requires forall k :: 0 <= k < |s| ==> keep(s[k])
    ensures KeepIf(s, keep) == s
    decreases |s|
  {
    if |s| > 0 {
      KeepIfAll(s[1..], keep);
      assert s == [s[0]] + s[1..];
    }
  }

  lemma {:induction false} CollapseNormal(s: string)
    requires forall k :: 0 <= k < |s| ==> IsNormalChar(s[k])
    requires forall k :: 0 <= k < |s| - 1 ==> s[k] == ' ' ==> s[k + 1] != ' '
    ensures Collapse(s) == s
    decreases |s|
  {
    if |s| > 0 {
      CollapseNormal(s[1..]);
      if s[0] == ' ' {
        assert |s| > 1 ==> !IsJsSpace(s[1..][0]);
        assert DropSpaces(s[1..]) == s[1..];
      }
      assert s == [s[0]] + s[1..];
    }
  }

  lemma ToLowerNormal(t: string)
    requires forall k :: 0 <= k < |t| ==> IsNormalChar(t[k])
    ensures ToLower(t) == t
  {
  }

  lemma StripNormal(t: string)
    requires forall k :: 0 <= k < |t| ==> IsNormalChar(t[k])
    ensures StripNonWord(StripMarks(t)) == t
  {
    KeepIfAll(t, c => !IsCombiningMark(c));
    KeepIfAll(t, c => IsWordChar(c) || IsJsSpace(c));
  }

  lemma TrimNormal(t: string)
    requires NormalForm(t)
    ensures Trim(t) == t
  {
    assert DropSpaces(t) == t;
    assert DropTrailingSpaces(t) == t;
  }

  lemma NormalFormFixed(t: string)
    requires NormalForm(t)
    ensures Normalize(t) == t
  {
    ToLowerNormal(t);
    DecomposeNormal(t);
    StripNormal(t);
    CollapseNormal(t);
    TrimNormal(t);
  }

  /** Normalising is idempotent: a second pass changes nothing. */
  lemma NormalizeIdempotent(s: string)
    ensures Normalize(Normalize(s)) == Normalize(s)
  {
    NormalizeInNormalForm(s);
    NormalFormFixed(Normalize(s));
  }
}
