/**
 * `normalize_and_map` of `pattern_utils.py`: the text with all whitespace removed, and
 * for each kept character the index it had in the original text.
 */
module PatternUtils {
  import opened PyStr

  /** `text` with every whitespace character removed. */
  function Normalized(text: string): string
    decreases |text|
  {
    if text == [] then []
    else
      var c := text[|text| - 1];
      Normalized(text[..|text| - 1]) + (if IsSpace(c) then [] else [c])
  }

  /** The original index of every character `Normalized` keeps, in order. */
  function IndexMap(text: string): (r: seq<int>)
    ensures |r| == |Normalized(text)|
    ensures forall i :: 0 <= i < |r| ==> 0 <= r[i] < |text|
    decreases |text|
  {
    if text == [] then []
    else
      var c := text[|text| - 1];
      IndexMap(text[..|text| - 1]) + (if IsSpace(c) then [] else [|text| - 1])
  }

  /** `im` maps the characters of `norm` back into `text`: same length, strictly
      increasing, in range, and each entry points at the very character it stands for,
      which is not whitespace. */
  predicate MapsBack(text: string, norm: string, im: seq<int>)
  {
    |im| == |norm| &&
    (forall i :: 0 <= i < |im| ==> 0 <= im[i] < |text| && text[im[i]] == norm[i] && !IsSpace(norm[i])) &&
    (forall i, j :: 0 <= i < j < |im| ==> im[i] < im[j])
  }

  /** Every non-whitespace position of `text` appears in `im`. */
  predicate CoversText(text: string, im: seq<int>)
  {
    forall p :: 0 <= p < |text| && !IsSpace(text[p]) ==> p in im
  }

  /** Strips `text` of whitespace, recording where each kept character came from. */
  method NormalizeAndMap(text: string) returns (normalized: string, indexMap: seq<int>)
    ensures normalized == Normalized(text) && indexMap == IndexMap(text)
  {
    normalized, indexMap := [], [];
    var idx := 0;
    while idx < |text|
      invariant 0 <= idx <= |text|
      invariant normalized == Normalized(text[..idx]) && indexMap == IndexMap(text[..idx])
    {
      var ch := text[idx];
      assert text[..idx + 1][..idx] == text[..idx];
      if !IsSpace(ch) {
        normalized := normalized + [ch];
        indexMap := indexMap + [idx];
      }
      idx := idx + 1;
    }
    assert text[..idx] == text;
  }

  /** The index map returned for `text` maps every normalized character back to it. */
  lemma {:induction false} IndexMapMapsBack(text: string)
    ensures MapsBack(text, Normalized(text), IndexMap(text))
    ensures forall i :: 0 <= i < |IndexMap(text)| ==> IndexMap(text)[i] < |text|
    decreases |text|
  {
    if text != [] {
      var init := text[..|text| - 1];
      IndexMapMapsBack(init);
      var im, n := IndexMap(init), Normalized(init);
      forall i | 0 <= i < |im| ensures text[im[i]] == init[im[i]] { }
    }
  }

  /** The index map is strictly increasing. */
  lemma {:induction false} IndexMapIncreasing(text: string)
    ensures forall i, j :: 0 <= i < j < |IndexMap(text)| ==> IndexMap(text)[i] < IndexMap(text)[j]
    decreases |text|
  {
    if text != [] {
      IndexMapIncreasing(text[..|text| - 1]);
    }
  }

  /** Every non-whitespace position of `text` is in its index map. */
  lemma {:induction false} IndexMapCovers(text: string)
    ensures CoversText(text, IndexMap(text))
    decreases |text|
  {
    if text != [] {
      var init := text[..|text| - 1];
      IndexMapCovers(init);
      forall p | 0 <= p < |text| && !IsSpace(text[p]) ensures p in IndexMap(text) {
        if p < |init| {
          assert init[p] == text[p];
          assert p in IndexMap(init);
        } else {
          assert IndexMap(text) == IndexMap(init) + [p];
        }
      }
    }
  }

  /** The normalized text has no whitespace left in it. */
  lemma {:induction false} NormalizedHasNoSpace(text: string)
    ensures forall i :: 0 <= i < |Normalized(text)| ==> !IsSpace(Normalized(text)[i])
  {
    IndexMapMapsBack(text);
  }

  /** Normalizing twice is normalizing once. */
  lemma {:induction false} NormalizedIdempotent(text: string)
    ensures Normalized(Normalized(text)) == Normalized(text)
  {
    NormalizedHasNoSpace(text);
    NoSpaceFixed(Normalized(text));
  }

  /** Text without whitespace is its own normalization. */
  lemma {:induction false} NoSpaceFixed(s: string)
    requires forall i :: 0 <= i < |s| ==> !IsSpace(s[i])
    ensures Normalized(s) == s
    decreases |s|
  {
    if s != [] {
      NoSpaceFixed(s[..|s| - 1]);
    }
  }

  /** Normalizing a concatenation normalizes each part. */
  lemma {:induction false} NormalizedConcat(a: string, b: string)
    ensures Normalized(a + b) == Normalized(a) + Normalized(b)
    decreases |b|
  {
    if b == [] {
      assert a + b == a;
    } else {
      assert (a + b)[..|a + b| - 1] == a + b[..|b| - 1];
      NormalizedConcat(a, b[..|b| - 1]);
    }
  }

  /** The text before the original position of normalized character `a` normalizes to the
      first `a` normalized characters. */
  lemma {:induction false} NormalizedBefore(text: string, a: int)
    requires 0 <= a < |IndexMap(text)|
    ensures IndexMap(text)[a] < |text|
    ensures Normalized(text[..IndexMap(text)[a]]) == Normalized(text)[..a]
    decreases |text|
  {
    IndexMapMapsBack(text);
    var init := text[..|text| - 1];
    IndexMapMapsBack(init);
    if a < |IndexMap(init)| {
      NormalizedBefore(init, a);
      var p := IndexMap(init)[a];
      assert text[..p] == init[..p];
    } else {
      assert text[..|text| - 1] == init;
    }
  }

  /** The text from the original position of normalized character `a` on normalizes to
      the normalized characters from `a` on. */
  lemma {:induction false} NormalizedFrom(text: string, a: int)
    requires 0 <= a < |IndexMap(text)|
    ensures IndexMap(text)[a] < |text|
    ensures Normalized(text[IndexMap(text)[a]..]) == Normalized(text)[a..]
  {
    NormalizedBefore(text, a);
    var p := IndexMap(text)[a];
    assert text == text[..p] + text[p..];
    NormalizedConcat(text[..p], text[p..]);
  }

  /** The original text between the positions of normalized characters `a` and `b`
      normalizes to the normalized characters `a` through `b`. */
  lemma {:induction false} NormalizedBetween(text: string, a: int, b: int)
    requires 0 <= a <= b < |IndexMap(text)|
    ensures IndexMap(text)[a] <= IndexMap(text)[b] < |text|
    ensures Normalized(text[IndexMap(text)[a]..IndexMap(text)[b] + 1]) == Normalized(text)[a..b + 1]
  {
    IndexMapIncreasing(text);
    if b + 1 < |IndexMap(text)| {
      BetweenInner(text, a, b);
    } else {
      BetweenLast(text, a, b);
    }
  }

  /** `NormalizedBetween` when another kept character follows `b`. */
  lemma {:induction false} BetweenInner(text: string, a: int, b: int)
    requires 0 <= a <= b && b + 1 < |IndexMap(text)|
    requires IndexMap(text)[a] <= IndexMap(text)[b]
    ensures Normalized(text[IndexMap(text)[a]..IndexMap(text)[b] + 1]) == Normalized(text)[a..b + 1]
  {
    var im := IndexMap(text);
    NormalizedSpan(text, a, b + 1);
    AllSpaceBetween(text, b);
    var seg, gap, whole := text[im[a]..im[b] + 1], text[im[b] + 1..im[b + 1]], text[im[a]..im[b + 1]];
    assert whole == seg + gap;
    DropSpaceTail(seg, gap, whole);
  }

  /** `NormalizedBetween` when `b` is the last kept character. */
  lemma {:induction false} BetweenLast(text: string, a: int, b: int)
    requires 0 <= a <= b && b + 1 == |IndexMap(text)|
    requires IndexMap(text)[a] <= IndexMap(text)[b]
    ensures Normalized(text[IndexMap(text)[a]..IndexMap(text)[b] + 1]) == Normalized(text)[a..b + 1]
  {
    var im := IndexMap(text);
    NormalizedFrom(text, a);
    AllSpaceAfterLast(text);
    var seg, gap, whole := text[im[a]..im[b] + 1], text[im[b] + 1..], text[im[a]..];
    assert whole == seg + gap;
    DropSpaceTail(seg, gap, whole);
    assert Normalized(text)[a..] == Normalized(text)[a..b + 1];
  }

  /** Whitespace after a text does not change its normalization. */
  lemma {:induction false} DropSpaceTail(seg: string, gap: string, whole: string)
    requires whole == seg + gap && Normalized(gap) == []
    ensures Normalized(seg) == Normalized(whole)
  {
    NormalizedConcat(seg, gap);
    assert Normalized(seg) + [] == Normalized(seg);
  }

  /** The original text from the position of normalized character `a` up to that of `c`
      normalizes to the normalized characters `a` up to `c`. */
  lemma {:induction false} NormalizedSpan(text: string, a: int, c: int)
    requires 0 <= a < c < |IndexMap(text)|
    ensures IndexMap(text)[a] < IndexMap(text)[c]
    ensures Normalized(text[IndexMap(text)[a]..IndexMap(text)[c]]) == Normalized(text)[a..c]
  {
    var im := IndexMap(text);
    var norm := Normalized(text);
    NormalizedBefore(text, a);
    NormalizedBefore(text, c);
    IndexMapIncreasing(text);
    var mid := text[im[a]..im[c]];
    assert text[..im[c]] == text[..im[a]] + mid;
    NormalizedConcat(text[..im[a]], mid);
    assert norm[..c] == norm[..a] + norm[a..c];
  }

  /** Between two consecutive kept characters the text is all whitespace. */
  lemma {:induction false} AllSpaceBetween(text: string, b: int)
    requires 0 <= b && b + 1 < |IndexMap(text)|
    ensures IndexMap(text)[b] + 1 <= IndexMap(text)[b + 1] <= |text|
    ensures Normalized(text[IndexMap(text)[b] + 1..IndexMap(text)[b + 1]]) == []
  {
    IndexMapIncreasing(text);
    IndexMapCovers(text);
    var im := IndexMap(text);
    var gap := text[im[b] + 1..im[b + 1]];
    forall i | 0 <= i < |gap| ensures IsSpace(gap[i]) {
      var p := im[b] + 1 + i;
      assert gap[i] == text[p];
      forall k | 0 <= k < |im| ensures im[k] != p {
        if k < b {
          assert im[k] < im[b];
        } else if k > b + 1 {
          assert im[b + 1] < im[k];
        }
      }
    }
    AllSpaceNormalizesEmpty(gap);
  }

  /** After the last kept character the text is all whitespace. */
  lemma {:induction false} AllSpaceAfterLast(text: string)
    requires IndexMap(text) != []
    ensures IndexMap(text)[|IndexMap(text)| - 1] < |text|
    ensures Normalized(text[IndexMap(text)[|IndexMap(text)| - 1] + 1..]) == []
    decreases |text|
  {
    var init := text[..|text| - 1];
    var c := text[|text| - 1];
    var im := IndexMap(text);
    if IsSpace(c) {
      assert im == IndexMap(init);
      AllSpaceAfterLast(init);
      assert text == init + [c];
      SpaceAppended(init, c, im[|im| - 1] + 1);
    } else {
      assert im[|im| - 1] == |text| - 1;
      assert text[|text|..] == [];
    }
  }

  /** Appending whitespace to text that normalizes to nothing from `from` on keeps it so. */
  lemma {:induction false} SpaceAppended(init: string, c: char, from: int)
    requires IsSpace(c) && 0 <= from <= |init| && Normalized(init[from..]) == []
    ensures Normalized((init + [c])[from..]) == []
  {
    assert (init + [c])[from..] == init[from..] + [c];
    NormalizedConcat(init[from..], [c]);
    assert Normalized([c]) == Normalized([]) + [];
  }

  /** All-whitespace text normalizes to nothing. */
  lemma {:induction false} AllSpaceNormalizesEmpty(s: string)
    requires forall i :: 0 <= i < |s| ==> IsSpace(s[i])
    ensures Normalized(s) == []
    decreases |s|
  {
    if s != [] {
      AllSpaceNormalizesEmpty(s[..|s| - 1]);
    }
  }
}
