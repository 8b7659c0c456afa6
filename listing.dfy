/**
 * The post-processing of the listing in `fetch_data`: each `.home-info`
 * entry of the feed becomes an information item, and the list is reversed
 * so that the oldest entry comes first.
 */
module Listing {
  import opened JsStrings

  /**
   * The strings one listing entry yields before post-processing: the `href`
   * of its link, the text of its type, title and info-type elements (before
   * `trim`), and the `src` of its image.
   */
  datatype RawEntry = RawEntry(href: string, typeText: string, titleText: string, infoTypeText: string, src: string)

  /** `HpoiInformationItem`. */
  datatype InfoItem = InfoItem(
    hobbyId: int,
    linkPath: string,
    typeName: string,
    imageUrl: string,
    infoTitle: string,
    infoType: string)

  const SiteRoot: string := "https://www.hpoi.net/"

  /** The number a string of decimal digits denotes, leading zeros allowed. */
  function DecimalValue(digits: string): nat
    requires AllDigits(digits)
  {
    if |digits| == 0 then 0
    else DecimalValue(digits[..|digits| - 1]) * 10 + (digits[|digits| - 1] as int - '0' as int)
  }

  /** The index of the first ASCII digit of `s`, or `|s|` when there is none. */
  function FirstDigit(s: string): (i: nat)
    ensures i <= |s|
    ensures forall k :: 0 <= k < i ==> !IsAsciiDigit(s[k])
    ensures i < |s| ==> IsAsciiDigit(s[i])
  {
    if |s| == 0 || IsAsciiDigit(s[0]) then 0 else 1 + FirstDigit(s[1..])
  }

  /** The end of the run of ASCII digits that starts at `i`. */
  function DigitRunEnd(s: string, i: nat): (j: nat)
    requires i <= |s|
    ensures i <= j <= |s|
    ensures forall k :: i <= k < j ==> IsAsciiDigit(s[k])
    ensures j < |s| ==> !IsAsciiDigit(s[j])
    decreases |s| - i
  {
    if i == |s| || !IsAsciiDigit(s[i]) then i else DigitRunEnd(s, i + 1)
  }

  /**
   * `Number(link_path.match(/\d+/ui))`: the value of the first run of ASCII
   * digits; a path without digits gives `Number(null)`, which is 0.
   */
  function HobbyId(href: string): nat {
    var i := FirstDigit(href);
    if i == |href| then 0
    else
      var j := DigitRunEnd(href, i);
      assert AllDigits(href[i..j]) by {
        forall k | 0 <= k < j - i ensures IsAsciiDigit(href[i..j][k]) {
          assert href[i..j][k] == href[i + k];
        }
      }
      DecimalValue(href[i..j])
  }

  /** A path without a digit gives the id 0. */
  lemma HobbyIdWithoutDigits(href: string)
    requires forall k :: 0 <= k < |href| ==> !IsAsciiDigit(href[k])
    ensures HobbyId(href) == 0
  {
  }

  /**
   * Whenever `href[i..j]` is the first maximal run of ASCII digits of the
   * path, the id is the number that run denotes.
   */
  lemma HobbyIdIsFirstRun(href: string, i: nat, j: nat)
    requires i < j <= |href|
    requires forall k :: 0 <= k < i ==> !IsAsciiDigit(href[k])
    requires forall k :: i <= k < j ==> IsAsciiDigit(href[k])
    requires j == |href| || !IsAsciiDigit(href[j])
    ensures AllDigits(href[i..j])
    ensures HobbyId(href) == DecimalValue(href[i..j])
  {
    var f := FirstDigit(href);
    assert f < |href| ==> IsAsciiDigit(href[f]);
    assert IsAsciiDigit(href[i]);
    assert f == i;
    var e := DigitRunEnd(href, i);
    assert e < |href| ==> !IsAsciiDigit(href[e]);
    assert j < |href| ==> !IsAsciiDigit(href[j]);
    assert e == j;
  }

  /**
   * The image URL loses its query string only when the first `?` stands at
   * an index greater than 0; otherwise it is returned as it is.
   */
  function StripQuery(url: string): (r: string)
    ensures '?' in url && url[0] != '?' ==>
      |r| < |url| && r == url[..|r|] && url[|r|] == '?' && '?' !in r
    ensures '?' !in url || url[0] == '?' ==> r == url
  {
    var q := IndexOf(url, '?');
    if q > 0 then SplitFirstPiece(url, '?'); Split(url, '?')[0] else url
  }

  /** The mapping `fetch_data` applies to one entry. */
  function ToInfoItem(e: RawEntry): InfoItem {
    InfoItem(
      hobbyId := HobbyId(e.href),
      linkPath := SiteRoot + e.href,
      typeName := Trim(e.typeText),
      imageUrl := StripQuery(e.src),
      infoTitle := Trim(e.titleText),
      infoType := Trim(e.infoTypeText))
  }

  /** `Array.prototype.map`. */
  function Map<A, B>(f: A -> B, s: seq<A>): seq<B> {
    if |s| == 0 then [] else Map(f, s[..|s| - 1]) + [f(s[|s| - 1])]
  }

  lemma {:induction false} MapAt<A, B>(f: A -> B, s: seq<A>)
    ensures |Map(f, s)| == |s|
    ensures forall k :: 0 <= k < |s| ==> Map(f, s)[k] == f(s[k])
  {
    if |s| > 0 {
      var front := s[..|s| - 1];
      MapAt(f, front);
      assert forall k :: 0 <= k < |front| ==> front[k] == s[k];
    }
  }

  /** `Array.prototype.reverse`. */
  function Reverse<T>(s: seq<T>): seq<T> {
    if |s| == 0 then [] else [s[|s| - 1]] + Reverse(s[..|s| - 1])
  }

  lemma {:induction false} ReverseAt<T>(s: seq<T>)
    ensures |Reverse(s)| == |s|
    ensures forall k :: 0 <= k < |s| ==> Reverse(s)[k] == s[|s| - 1 - k]
  {
    if |s| > 0 {
      var front := s[..|s| - 1];
      ReverseAt(front);
      forall k | 1 <= k < |s| ensures Reverse(s)[k] == s[|s| - 1 - k] {
        assert Reverse(s)[k] == Reverse(front)[k - 1];
      }
    }
  }

  /** The items `fetch_data` returns for the entries of the listing document. */
  function FetchData(entries: seq<RawEntry>): seq<InfoItem> {
    Reverse(Map(ToInfoItem, entries))
  }

  /**
   * The items come in the reverse of document order, one per entry, with id,
   * site-prefixed link, trimmed texts and stripped image URL.
   */
  lemma FetchDataOrder(entries: seq<RawEntry>)
    ensures |FetchData(entries)| == |entries|
    ensures forall k :: 0 <= k < |entries| ==> FetchData(entries)[k] == ToInfoItem(entries[|entries| - 1 - k])
  {
    MapAt(ToInfoItem, entries);
    ReverseAt(Map(ToInfoItem, entries));
  }

  /** Every link is the site root followed by the raw path of its entry. */
  lemma FetchDataLinks(entries: seq<RawEntry>)
    ensures |FetchData(entries)| == |entries|
    ensures forall k :: 0 <= k < |entries| ==>
      var item := FetchData(entries)[k];
      |item.linkPath| >= |SiteRoot| && item.linkPath[..|SiteRoot|] == SiteRoot
      && item.linkPath[|SiteRoot|..] == entries[|entries| - 1 - k].href
  {
    FetchDataOrder(entries);
  }
}
