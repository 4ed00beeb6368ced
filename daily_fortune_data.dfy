/**
 * `extractSection`: the lines of the server's daily text that follow a
 * section marker, up to the next emoji.
 */
module DailyFortuneData {
  import opened Text

  /** The pictograph block `[\u{1F300}-\u{1FAFF}]` the section search stops at. */
  predicate IsPictograph(c: char) {
    '\U{1F300}' <= c <= '\U{1FAFF}'
  }

  /** `s.search(/[\u{1F300}-\u{1FAFF}]/u)`: the first pictograph's index, or -1. */
  function SearchPictograph(s: string): (r: int)
    ensures -1 <= r < |s|
    ensures r >= 0 ==> IsPictograph(s[r]) && forall i :: 0 <= i < r ==> !IsPictograph(s[i])
    ensures r == -1 <==> forall i :: 0 <= i < |s| ==> !IsPictograph(s[i])
    decreases |s|
  {
    if s == [] then -1
    else if IsPictograph(s[0]) then 0
    else
      var r := SearchPictograph(s[1..]);
      assert forall i :: 1 <= i < |s| ==> s[i] == s[1..][i - 1];
      if r == -1 then -1 else r + 1
  }

  /** `.map(line => line.trim())`. */
  function TrimAll(lines: seq<string>): (r: seq<string>)
    ensures |r| == |lines| && forall i :: 0 <= i < |lines| ==> r[i] == Trim(lines[i])
  {
    seq(|lines|, i requires 0 <= i < |lines| => Trim(lines[i]))
  }

  /** `.filter(Boolean)` on strings: the non-empty ones, in order. */
  function NonEmpty(xs: seq<string>): seq<string>
    decreases |xs|
  {
    if |xs| == 0 then []
    else if |xs[0]| == 0 then NonEmpty(xs[1..])
    else [xs[0]] + NonEmpty(xs[1..])
  }

  /** `.map(line => line.trim()).filter(Boolean)`. */
  function CleanLines(lines: seq<string>): seq<string> {
    NonEmpty(TrimAll(lines))
  }

  /** The text from the marker up to (not including) the next pictograph after it, or to the end. */
  function SectionText(text: string, emoji: string, index: nat): (s: string)
    requires index + |emoji| <= |text|
    ensures |emoji| <= |s| <= |text| - index && s == text[index..index + |s|]
  {
    var next := SearchPictograph(text[index + |emoji|..]);
    if next == -1 then text[index..] else text[index..index + |emoji| + next]
  }

  /**
   * `extractSection`: nothing when the marker is absent; otherwise the
   * section's lines after the marker's own, trimmed, without empty ones.
   */
  function ExtractSection(text: string, emoji: string): (r: seq<string>)
    ensures IndexOf(text, emoji) == -1 ==> r == []
    ensures IndexOf(text, emoji) != -1 ==>
              var index := IndexOf(text, emoji);
              index + |emoji| <= |text| && r == CleanLines(Split(SectionText(text, emoji, index), '\n')[1..])
  {
    var index := IndexOf(text, emoji);
    if index == -1 then []
    else CleanLines(Split(SectionText(text, emoji, index), '\n')[1..])
  }

  /** Every kept string is an input string at or after its own position. */
  lemma {:induction false} NonEmptyFrom(xs: seq<string>, k: nat) returns (i: nat)
    requires k < |NonEmpty(xs)|
    ensures k <= i < |xs| && xs[i] == NonEmpty(xs)[k] && |xs[i]| > 0
    decreases |xs|
  {
    var tail := xs[1..];
    if |xs[0]| == 0 {
      var j := NonEmptyFrom(tail, k);
      i := j + 1;
      assert tail[j] == xs[i];
    } else if k == 0 {
      i := 0;
    } else {
      var j := NonEmptyFrom(tail, k - 1);
      i := j + 1;
      assert tail[j] == xs[i];
    }
  }

  /** Every cleaned line is the trimmed form of an input line, at or after its own position. */
  lemma CleanLinesFrom(lines: seq<string>, k: nat) returns (i: nat)
    requires k < |CleanLines(lines)|
    ensures k <= i < |lines| && Trim(lines[i]) == CleanLines(lines)[k] && |CleanLines(lines)[k]| > 0
  {
    i := NonEmptyFrom(TrimAll(lines), k);
  }

  /** Every non-empty string is kept. */
  lemma {:induction false} NonEmptyKeeps(xs: seq<string>, i: nat)
    requires i < |xs| && |xs[i]| > 0
    ensures xs[i] in NonEmpty(xs)
    decreases i
  {
    if i > 0 {
      NonEmptyKeeps(xs[1..], i - 1);
      assert xs[1..][i - 1] == xs[i];
    }
  }

  /** Every input line that is not blank comes out trimmed. */
  lemma CleanLinesKeeps(lines: seq<string>, i: nat)
    requires i < |lines| && |Trim(lines[i])| > 0
    ensures Trim(lines[i]) in CleanLines(lines)
  {
    NonEmptyKeeps(TrimAll(lines), i);
  }

  /** Every cleaned line is non-empty and has nothing left to trim. */
  lemma CleanLinesTrimmed(lines: seq<string>)
    ensures forall k :: 0 <= k < |CleanLines(lines)| ==> |CleanLines(lines)[k]| > 0 && Trim(CleanLines(lines)[k]) == CleanLines(lines)[k]
  {
    forall k | 0 <= k < |CleanLines(lines)|
      ensures |CleanLines(lines)[k]| > 0 && Trim(CleanLines(lines)[k]) == CleanLines(lines)[k]
    {
      var i := CleanLinesFrom(lines, k);
      TrimIdempotent(lines[i]);
    }
  }

  /** No more strings come out than went in, and as many when none is empty. */
  lemma {:induction false} NonEmptyLength(xs: seq<string>)
    ensures |NonEmpty(xs)| <= |xs|
    ensures (forall i :: 0 <= i < |xs| ==> |xs[i]| > 0) ==> |NonEmpty(xs)| == |xs|
    decreases |xs|
  {
    if xs != [] {
      NonEmptyLength(xs[1..]);
      if forall i :: 0 <= i < |xs| ==> |xs[i]| > 0 {
        assert |xs[0]| > 0;
        assert forall i :: 0 <= i < |xs[1..]| ==> xs[1..][i] == xs[i + 1];
      }
    }
  }

  /** No more lines come out than went in, and as many when none is blank. */
  lemma CleanLinesLength(lines: seq<string>)
    ensures |CleanLines(lines)| <= |lines|
    ensures (forall i :: 0 <= i < |lines| ==> |Trim(lines[i])| > 0) ==> |CleanLines(lines)| == |lines|
  {
    NonEmptyLength(TrimAll(lines));
  }

  /** Cleaning keeps only characters that were already there. */
  lemma CleanLinesChars(lines: seq<string>)
    ensures forall l, c :: l in CleanLines(lines) && c in l ==> exists m :: m in lines && c in m
  {
    var r := CleanLines(lines);
    forall l, c | l in r && c in l ensures exists m :: m in lines && c in m {
      var k :| 0 <= k < |r| && r[k] == l;
      var i := CleanLinesFrom(lines, k);
      var p, q := TrimIsInfix(lines[i]);
      var n :| 0 <= n < |l| && l[n] == c;
      assert c == lines[i][p + n];
      assert lines[i] in lines;
    }
  }

  /** The lines cut from a section that starts at a marker occurrence hold no pictograph. */
  lemma NoPictographAt(text: string, emoji: string, index: nat)
    requires '\n' !in emoji && index + |emoji| <= |text| && OccursAt(text, emoji, index)
    ensures forall l, c :: l in CleanLines(Split(SectionText(text, emoji, index), '\n')[1..]) && c in l ==> !IsPictograph(c)
  {
    var section := SectionText(text, emoji, index);
    var body := section[|emoji|..];
    assert body == text[index + |emoji|..index + |section|];
    var after := text[index + |emoji|..];
    assert forall c :: c in body ==> !IsPictograph(c) by {
      var next := SearchPictograph(after);
      forall k | 0 <= k < |body| ensures !IsPictograph(body[k]) {
        assert body[k] == after[k];
      }
    }
    assert section[..|emoji|] == emoji;
    assert section == emoji + body;
    SplitPrefixTail(emoji, body, '\n');
    SplitChars(body, '\n');
    var lines := Split(body, '\n')[1..];
    assert Split(section, '\n')[1..] == lines;
    CleanLinesChars(lines);
    forall l, c | l in CleanLines(lines) && c in l ensures !IsPictograph(c) {
      var m :| m in lines && c in m;
      assert m in Split(body, '\n');
    }
  }

  /**
   * When the marker has no line break of its own, no returned line holds a
   * pictograph: the first line, which holds the marker, is dropped, and the
   * section stops before the next pictograph.
   */
  lemma NoPictographInLines(text: string, emoji: string)
    requires '\n' !in emoji
    ensures forall l, c :: l in ExtractSection(text, emoji) && c in l ==> !IsPictograph(c)
  {
    var index := IndexOf(text, emoji);
    if index != -1 {
      NoPictographAt(text, emoji, index);
    }
  }

  /** Without another pictograph the section runs to the end of the text. */
  lemma SectionToEnd(text: string, emoji: string)
    requires IndexOf(text, emoji) != -1
    requires forall i :: IndexOf(text, emoji) + |emoji| <= i < |text| ==> !IsPictograph(text[i])
    ensures SectionText(text, emoji, IndexOf(text, emoji)) == text[IndexOf(text, emoji)..]
  {
    var index := IndexOf(text, emoji);
    var after := text[index + |emoji|..];
    forall i | 0 <= i < |after| ensures !IsPictograph(after[i]) {
      assert after[i] == text[index + |emoji| + i];
    }
  }

  /** The search answers with the first pictograph. */
  lemma SearchFindsFirst(s: string, d: nat)
    requires d < |s| && IsPictograph(s[d]) && forall q :: 0 <= q < d ==> !IsPictograph(s[q])
    ensures SearchPictograph(s) == d
  {
    var r := SearchPictograph(s);
    assert r != -1;
  }

  /** From a marker at `index`, the section stops just before the first pictograph after the marker. */
  lemma SectionStopsAt(text: string, emoji: string, index: nat, p: nat)
    requires index + |emoji| <= p < |text| && IsPictograph(text[p])
    requires forall q :: index + |emoji| <= q < p ==> !IsPictograph(text[q])
    ensures SectionText(text, emoji, index) == text[index..p]
  {
    var after := text[index + |emoji|..];
    var d := p - index - |emoji|;
    assert after[d] == text[p];
    forall q | 0 <= q < d ensures !IsPictograph(after[q]) {
      assert after[q] == text[index + |emoji| + q];
    }
    SearchFindsFirst(after, d);
  }

  /** The section stops just before the first pictograph after the marker. */
  lemma SectionStopsAtPictograph(text: string, emoji: string, p: nat)
    requires IndexOf(text, emoji) != -1
    requires IndexOf(text, emoji) + |emoji| <= p < |text| && IsPictograph(text[p])
    requires forall q :: IndexOf(text, emoji) + |emoji| <= q < p ==> !IsPictograph(text[q])
    ensures SectionText(text, emoji, IndexOf(text, emoji)) == text[IndexOf(text, emoji)..p]
  {
    SectionStopsAt(text, emoji, IndexOf(text, emoji), p);
  }

  /** Filtering a concatenation filters each part in turn. */
  lemma {:induction false} NonEmptyAppend(a: seq<string>, b: seq<string>)
    ensures NonEmpty(a + b) == NonEmpty(a) + NonEmpty(b)
    decreases |a|
  {
    if |a| == 0 {
      assert a + b == b;
    } else {
      assert (a + b)[0] == a[0];
      assert (a + b)[1..] == a[1..] + b;
      NonEmptyAppend(a[1..], b);
    }
  }

  /** Lines keep their order: cleaning a text's lines is cleaning each stretch of them in turn. */
  lemma CleanLinesAppend(a: seq<string>, b: seq<string>)
    ensures CleanLines(a + b) == CleanLines(a) + CleanLines(b)
  {
    assert TrimAll(a + b) == TrimAll(a) + TrimAll(b);
    NonEmptyAppend(TrimAll(a), TrimAll(b));
  }

  /** The worked case's section, cut into lines. */
  lemma ExampleLines()
    ensures Split("🌟\n 順利 \n", '\n')[1..] == [" 順利 ", ""]
  {
    assert "🌟\n 順利 \n" == "🌟" + "\n" + " 順利 \n";
    SplitAppend("🌟", " 順利 \n", '\n');
    assert " 順利 \n" == " 順利 " + "\n" + "";
    SplitAppend(" 順利 ", "", '\n');
    SplitNoSep("", '\n');
  }

  /** The worked case's lines, cleaned. */
  lemma ExampleClean()
    ensures CleanLines([" 順利 ", ""]) == ["順利"]
  {
    assert LeadingSpaces(" 順利 ") == 1;
    assert TrailingSpaces(" 順利 ") == 1;
    assert Trim(" 順利 ") == "順利";
    assert TrimAll([" 順利 ", ""]) == ["順利", ""];
    assert NonEmpty([""]) == [];
  }

  /** A worked case: the marker's own line is dropped, and the next emoji ends the section. */
  lemma ExtractSectionExample()
    ensures ExtractSection("🌟\n 順利 \n💰", "🌟") == ["順利"]
  {
    var text := "🌟\n 順利 \n💰";
    assert IndexOf(text, "🌟") == 0 by {
      assert OccursAt(text, "🌟", 0);
    }
    assert SearchPictograph(text[1..]) == 6 by {
      var after := text[1..];
      assert IsPictograph(after[6]);
      assert forall i :: 0 <= i < 6 ==> !IsPictograph(after[i]);
    }
    assert SectionText(text, "🌟", 0) == "🌟\n 順利 \n";
    ExampleLines();
    ExampleClean();
  }
}
