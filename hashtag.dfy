/**
 * The tag normaliser `escape_telegram_hashtag` and the pure tail of
 * `fetch_tags`, which turns the label texts of an item's info table into
 * Telegram hashtags.
 */
module Hashtag {
  import opened JsStrings

  /**
   * The Unicode letter class `\pL` (as XRegExp matches it under the `i`
   * flag). Its membership is not modelled: every operation takes it as a
   * parameter.
   */
  type LetterTest = char -> bool

  /** The glyph that replaces the slash of a ratio such as `1/8`. */
  const RatioGlyph: char := '比'

  /** The sentinel label of the info table that is never turned into a tag. */
  const UnknownLabel: string := "未知"

  /** `/^\d+\/\d+$/.test(s)`: digits, one slash, digits. */
  predicate IsRatio(s: string) {
    exists k :: 0 < k < |s| - 1 && s[k] == '/' && AllDigits(s[..k]) && AllDigits(s[k + 1..])
  }

  /** `s.replace(from, to)` with a one-character string pattern: only the first occurrence is replaced. */
  function ReplaceFirst(s: string, from: char, to: char): (r: string)
    ensures |r| == |s|
    ensures from !in s ==> r == s
    ensures from in s ==> var k := IndexOf(s, from); r == s[..k] + [to] + s[k + 1..]
  {
    if |s| == 0 then s
    else if s[0] == from then [to] + s[1..]
    else [s[0]] + ReplaceFirst(s[1..], from, to)
  }

  /** A character that the class `[^\pL0-9]` does not match. */
  predicate Kept(isLetter: LetterTest, c: char) {
    isLetter(c) || IsAsciiDigit(c)
  }

  /** `escape_telegram_hashtag(text)`. */
  function EscapeHashtag(isLetter: LetterTest, text: string): string {
    if IsRatio(text) then ReplaceFirst(text, '/', RatioGlyph)
    else seq(|text|, i requires 0 <= i < |text| => if Kept(isLetter, text[i]) then text[i] else '_')
  }

  lemma SlashOfRatio(s: string, k: int)
    requires 0 < k < |s| - 1 && s[k] == '/' && AllDigits(s[..k]) && AllDigits(s[k + 1..])
    ensures IndexOf(s, '/') == k
    ensures forall i :: 0 <= i < |s| && i != k ==> s[i] != '/'
  {
    assert forall i :: 0 <= i < k ==> s[..k][i] == s[i];
    assert forall i :: k < i < |s| ==> s[k + 1..][i - k - 1] == s[i];
    assert '/' !in s[..k];
  }

  /**
   * A ratio keeps its length and its digits; its one slash becomes the
   * ratio glyph.
   */
  lemma EscapeRatio(isLetter: LetterTest, text: string)
    requires IsRatio(text)
    ensures var r := EscapeHashtag(isLetter, text);
      |r| == |text| && '/' in text && RatioGlyph in r && '/' !in r
      && forall i :: 0 <= i < |text| ==> r[i] == if text[i] == '/' then RatioGlyph else text[i]
  {
    var k :| 0 < k < |text| - 1 && text[k] == '/' && AllDigits(text[..k]) && AllDigits(text[k + 1..]);
    SlashOfRatio(text, k);
    var r := ReplaceFirst(text, '/', RatioGlyph);
    assert EscapeHashtag(isLetter, text) == r;
    Splice(text, k, RatioGlyph, r);
    assert r[k] in r;
    forall c | c in r ensures c != '/' {
      var i :| 0 <= i < |r| && r[i] == c;
    }
  }

  lemma Splice(s: string, k: int, c: char, r: string)
    requires 0 <= k < |s| && r == s[..k] + [c] + s[k + 1..]
    ensures |r| == |s| && forall i :: 0 <= i < |s| ==> r[i] == if i == k then c else s[i]
  {
  }

  /**
   * Any other text keeps its length; a letter or an ASCII digit stays where
   * it is and every other character becomes `_`.
   */
  lemma EscapeGeneral(isLetter: LetterTest, text: string)
    requires !IsRatio(text)
    ensures var r := EscapeHashtag(isLetter, text);
      |r| == |text|
      && forall i :: 0 <= i < |text| ==> r[i] == if Kept(isLetter, text[i]) then text[i] else '_'
  {
  }

  /** Every character of the result is a letter, an ASCII digit, `_` or the ratio glyph. */
  lemma EscapeAlphabet(isLetter: LetterTest, text: string)
    ensures var r := EscapeHashtag(isLetter, text);
      forall i :: 0 <= i < |r| ==> Kept(isLetter, r[i]) || r[i] == '_' || r[i] == RatioGlyph
  {
    if IsRatio(text) {
      var k :| 0 < k < |text| - 1 && text[k] == '/' && AllDigits(text[..k]) && AllDigits(text[k + 1..]);
      EscapeRatio(isLetter, text);
      RatioDigits(text, k);
    }
  }

  /** The escape introduces no white space (the ratio glyph is not a space). */
  lemma EscapeAddsNoSpace(isLetter: LetterTest, text: string)
    requires NoSpace(text)
    ensures NoSpace(EscapeHashtag(isLetter, text))
  {
    if IsRatio(text) {
      EscapeRatio(isLetter, text);
    }
  }

  /** When `\pL` holds of letters only, the escaped text has no white space at all. */
  lemma EscapeNoSpace(isLetter: LetterTest, text: string)
    requires forall c :: isLetter(c) ==> !IsJsSpace(c)
    ensures NoSpace(EscapeHashtag(isLetter, text))
  {
    EscapeAlphabet(isLetter, text);
  }

  lemma NoSlashNoRatio(s: string)
    requires '/' !in s
    ensures !IsRatio(s)
  {
    forall k | 0 < k < |s| - 1 ensures s[k] != '/' {
      assert s[k] in s;
    }
  }

  /** A ratio's characters other than the slash are ASCII digits. */
  lemma RatioDigits(s: string, k: int)
    requires 0 < k < |s| - 1 && s[k] == '/' && AllDigits(s[..k]) && AllDigits(s[k + 1..])
    ensures forall i :: 0 <= i < |s| && i != k ==> IsAsciiDigit(s[i])
  {
    forall i | 0 <= i < |s| && i != k ensures IsAsciiDigit(s[i]) {
      if i < k { assert s[..k][i] == s[i]; } else { assert s[k + 1..][i - k - 1] == s[i]; }
    }
  }

  /** An escaped text is never a ratio: the ratio glyph or `_` stands where a slash would. */
  lemma EscapedIsNoRatio(isLetter: LetterTest, text: string)
    ensures !IsRatio(EscapeHashtag(isLetter, text))
  {
    var r := EscapeHashtag(isLetter, text);
    if IsRatio(text) {
      EscapeRatio(isLetter, text);
      NoSlashNoRatio(r);
    } else if IsRatio(r) {
      var k :| 0 < k < |r| - 1 && r[k] == '/' && AllDigits(r[..k]) && AllDigits(r[k + 1..]);
      RatioDigits(r, k);
      assert forall i :: 0 <= i < |r| ==> r[i] == text[i];
    }
  }

  /** Escaping twice changes nothing (the ratio glyph is itself a letter). */
  lemma EscapeIdempotent(isLetter: LetterTest, text: string)
    requires isLetter(RatioGlyph)
    ensures EscapeHashtag(isLetter, EscapeHashtag(isLetter, text)) == EscapeHashtag(isLetter, text)
  {
    var r := EscapeHashtag(isLetter, text);
    EscapeAlphabet(isLetter, text);
    EscapedIsNoRatio(isLetter, text);
    EscapeGeneral(isLetter, r);
  }

  /** Mixed Latin and Japanese text: the space becomes `_`, every letter stays. */
  lemma EscapeMixedLabel(isLetter: LetterTest)
    requires forall c :: c in "PVC塗装済み完成品" ==> isLetter(c)
    requires !isLetter(' ')
    ensures EscapeHashtag(isLetter, "PVC 塗装済み完成品") == "PVC_塗装済み完成品"
  {
    var text := "PVC 塗装済み完成品";
    NoSlashNoRatio(text);
    EscapeGeneral(isLetter, text);
    var r := EscapeHashtag(isLetter, text);
    forall i | 0 <= i < |text| ensures r[i] == "PVC_塗装済み完成品"[i] {
      if i != 3 {
        assert "PVC_塗装済み完成品"[i] == text[i] && text[i] in "PVC塗装済み完成品";
      }
    }
  }

  lemma EscapeOneEighth(isLetter: LetterTest)
    ensures EscapeHashtag(isLetter, "1/8") == "1比8"
  {
    assert "1/8"[..1] == "1" && "1/8"[2..] == "8";
    assert IsRatio("1/8");
  }

  /** One table label through `trim`, `replace(/\s/g, '_')` and the escape. */
  function NormaliseLabel(isLetter: LetterTest, raw: string): string {
    EscapeHashtag(isLetter, SpacesToUnderscores(Trim(raw)))
  }

  /** The filter `Boolean(item) && item !== '未知'`. */
  predicate Survives(tag: string) {
    tag != "" && tag != UnknownLabel
  }

  function Normalised(isLetter: LetterTest, labels: seq<string>): seq<string> {
    seq(|labels|, i requires 0 <= i < |labels| => NormaliseLabel(isLetter, labels[i]))
  }

  function Surviving(tags: seq<string>): seq<string> {
    if |tags| == 0 then []
    else Surviving(tags[..|tags| - 1]) + (if Survives(tags[|tags| - 1]) then [tags[|tags| - 1]] else [])
  }

  function Prefixed(tags: seq<string>): seq<string> {
    seq(|tags|, i requires 0 <= i < |tags| => "#" + tags[i])
  }

  /** The tags `fetch_tags` returns for the label texts of an item's info table. */
  function TagList(isLetter: LetterTest, labels: seq<string>): seq<string> {
    Prefixed(Surviving(Normalised(isLetter, labels)))
  }

  /** The positions of the tags that survive the filter, in order. */
  function SurvivingIndices(tags: seq<string>): (idx: seq<nat>)
    ensures forall k :: 0 <= k < |idx| ==> idx[k] < |tags|
  {
    if |tags| == 0 then []
    else
      var n := |tags| - 1;
      SurvivingIndices(tags[..n]) + (if Survives(tags[n]) then [n] else [])
  }

  lemma NormaliseLabelNoSpace(isLetter: LetterTest, raw: string)
    ensures NoSpace(NormaliseLabel(isLetter, raw))
  {
    EscapeAddsNoSpace(isLetter, SpacesToUnderscores(Trim(raw)));
  }

  /**
   * Every tag starts with `#`, is neither `#` alone nor `#未知`, and holds no
   * white space.
   */
  lemma {:induction false} TagListWellFormed(isLetter: LetterTest, labels: seq<string>)
    ensures forall t :: t in TagList(isLetter, labels) ==>
      |t| >= 2 && t[0] == '#' && t != "#" + UnknownLabel && NoSpace(t)
  {
    var tags := Normalised(isLetter, labels);
    SurvivingWellFormed(isLetter, labels, tags);
    forall t | t in TagList(isLetter, labels)
      ensures |t| >= 2 && t[0] == '#' && t != "#" + UnknownLabel && NoSpace(t)
    {
      var k :| 0 <= k < |Surviving(tags)| && t == "#" + Surviving(tags)[k];
      var u := Surviving(tags)[k];
      assert u in Surviving(tags);
      assert t[1..] == u;
      assert ("#" + UnknownLabel)[1..] == UnknownLabel;
    }
  }

  lemma {:induction false} SurvivingWellFormed(isLetter: LetterTest, labels: seq<string>, tags: seq<string>)
    requires tags == Normalised(isLetter, labels)
    ensures forall u :: u in Surviving(tags) ==> Survives(u) && NoSpace(u)
  {
    if |tags| > 0 {
      var n := |tags| - 1;
      assert tags[..n] == Normalised(isLetter, labels[..n]);
      SurvivingWellFormed(isLetter, labels[..n], tags[..n]);
      NormaliseLabelNoSpace(isLetter, labels[n]);
    }
  }

  /**
   * The tags are the `#`-prefixed normalised labels at exactly the surviving
   * positions, in the order of the labels.
   */
  lemma TagListOrder(isLetter: LetterTest, labels: seq<string>)
    ensures var idx := SurvivingIndices(Normalised(isLetter, labels));
      (forall k, l :: 0 <= k < l < |idx| ==> idx[k] < idx[l])
      && (forall j :: 0 <= j < |labels| ==> (j in idx <==> Survives(NormaliseLabel(isLetter, labels[j]))))
      && |TagList(isLetter, labels)| == |idx|
      && forall k :: 0 <= k < |idx| ==> TagList(isLetter, labels)[k] == "#" + NormaliseLabel(isLetter, labels[idx[k]])
  {
    SurvivingOrder(Normalised(isLetter, labels));
  }

  lemma SurvivingOrder(tags: seq<string>)
    ensures var idx := SurvivingIndices(tags);
      (forall k, l :: 0 <= k < l < |idx| ==> idx[k] < idx[l])
      && (forall j :: 0 <= j < |tags| ==> (j in idx <==> Survives(tags[j])))
      && |Surviving(tags)| == |idx|
      && forall k :: 0 <= k < |idx| ==> Surviving(tags)[k] == tags[idx[k]]
  {
    SurvivingIndicesExact(tags);
    SurvivingAtIndices(tags);
  }

  /** The surviving positions are increasing and are exactly those whose tag survives. */
  lemma {:induction false} SurvivingIndicesExact(tags: seq<string>)
    ensures var idx := SurvivingIndices(tags);
      (forall k, l :: 0 <= k < l < |idx| ==> idx[k] < idx[l])
      && (forall j :: 0 <= j < |tags| ==> (j in idx <==> Survives(tags[j])))
  {
    if |tags| > 0 {
      var n := |tags| - 1;
      var front := tags[..n];
      SurvivingIndicesExact(front);
      var prev := SurvivingIndices(front);
      assert forall k :: 0 <= k < |prev| ==> prev[k] < n;
      assert forall j :: 0 <= j < n ==> front[j] == tags[j];
      assert n !in prev;
    }
  }

  lemma {:induction false} SurvivingAtIndices(tags: seq<string>)
    ensures var idx := SurvivingIndices(tags);
      |Surviving(tags)| == |idx| && forall k :: 0 <= k < |idx| ==> Surviving(tags)[k] == tags[idx[k]]
  {
    if |tags| > 0 {
      var n := |tags| - 1;
      var front := tags[..n];
      SurvivingAtIndices(front);
      var prev := SurvivingIndices(front);
      assert forall k :: 0 <= k < |prev| ==> prev[k] < n && front[prev[k]] == tags[prev[k]];
    }
  }
}
