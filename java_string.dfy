/** `java.lang.String.split(" ")`: a split on every single space, after
    which Java drops the trailing empty fields, except that a string with no
    space at all comes back as itself. */
module JavaString {

  /** The fields of `s` between single spaces, empty ones included: one more
      field than `s` has spaces. */
  function RawSplit(s: string): (r: seq<string>)
    ensures |r| >= 1
    ensures forall k :: 0 <= k < |r| ==> ' ' !in r[k]
  {
    if s == [] then [[]]
    else if s[0] == ' ' then [[]] + RawSplit(s[1..])
    else
      var t := RawSplit(s[1..]);
      [[s[0]] + t[0]] + t[1..]
  }

  /** The fields joined with one space between neighbours. */
  function Join(ws: seq<string>): string
    requires |ws| >= 1
  {
    if |ws| == 1 then ws[0] else ws[0] + " " + Join(ws[1..])
  }

  /** Java's removal of the trailing empty strings from a split result. */
  function DropTrailingEmpty(ws: seq<string>): (r: seq<string>)
    ensures |r| <= |ws| && r == ws[..|r|]
    ensures forall k :: |r| <= k < |ws| ==> ws[k] == []
    ensures r != [] ==> r[|r| - 1] != []
  {
    if ws != [] && ws[|ws| - 1] == [] then DropTrailingEmpty(ws[..|ws| - 1]) else ws
  }

  /** `s.split(" ")`. */
  function Split(s: string): (r: seq<string>)
    ensures forall k :: 0 <= k < |r| ==> ' ' !in r[k]
  {
    if ' ' !in s then [s] else DropTrailingEmpty(RawSplit(s))
  }

  /** A string without spaces is a single field. */
  lemma {:induction false} RawSplitNoSpace(w: string)
    requires ' ' !in w
    ensures RawSplit(w) == [w]
  {
    if w != [] {
      assert ' ' !in w[1..] by {
        forall k | 0 <= k < |w[1..]| ensures w[1..][k] != ' ' { assert w[1..][k] == w[k + 1]; }
      }
      RawSplitNoSpace(w[1..]);
      assert [w[0]] + w[1..] == w;
    }
  }

  /** A space separates the fields of its left part from those of its right part. */
  lemma {:induction false} RawSplitAtSpace(a: string, b: string)
    ensures RawSplit(a + " " + b) == RawSplit(a) + RawSplit(b)
  {
    if a == [] {
      assert a + " " + b == [' '] + b;
    } else {
      assert (a + " " + b)[1..] == a[1..] + " " + b;
      RawSplitAtSpace(a[1..], b);
    }
  }

  /** Joining the fields gives back the string: the raw split loses nothing. */
  lemma {:induction false} JoinRawSplit(s: string)
    ensures Join(RawSplit(s)) == s
  {
    if s != [] {
      JoinRawSplit(s[1..]);
      var t := RawSplit(s[1..]);
      if s[0] != ' ' && |t| > 1 {
        assert ([[s[0]] + t[0]] + t[1..])[1..] == t[1..];
      }
    }
  }

  /** Splitting space-free words joined by single spaces gives the words back. */
  lemma {:induction false} RawSplitJoin(ws: seq<string>)
    requires |ws| >= 1
    requires forall k :: 0 <= k < |ws| ==> ' ' !in ws[k]
    ensures RawSplit(Join(ws)) == ws
  {
    RawSplitNoSpace(ws[0]);
    if |ws| > 1 {
      RawSplitJoin(ws[1..]);
      RawSplitAtSpace(ws[0], Join(ws[1..]));
      assert ws == [ws[0]] + ws[1..];
    }
  }

  /** `Split` inverts `Join` on space-free words when the last word is not
      empty (only trailing empty fields are lost); a single word, even the
      empty one, comes back as itself. */
  lemma SplitJoin(ws: seq<string>)
    requires |ws| >= 1
    requires forall k :: 0 <= k < |ws| ==> ' ' !in ws[k]
    requires |ws| > 1 ==> ws[|ws| - 1] != []
    ensures Split(Join(ws)) == ws
  {
    RawSplitJoin(ws);
    if |ws| > 1 {
      assert ' ' in Join(ws) by {
        assert Join(ws)[|ws[0]|] == ' ';
      }
    } else {
      assert ' ' !in Join(ws);
    }
  }

  /** Adjacent spaces give an empty field. */
  lemma SplitAdjacentSpaces()
    ensures Split("a  b") == ["a", "", "b"]
  {
    RawSplitNoSpace("a");
    RawSplitNoSpace("b");
    RawSplitNoSpace("");
    RawSplitAtSpace("", "b");
    assert "" + " " + "b" == " b";
    RawSplitAtSpace("a", " b");
    assert "a" + " " + " b" == "a  b";
    assert ' ' in "a  b" by { assert "a  b"[1] == ' '; }
  }

  lemma RawSplitTrailingSpaces()
    ensures RawSplit("a b  ") == ["a", "b", "", ""]
  {
    RawSplitNoSpace("a");
    RawSplitNoSpace("b");
    RawSplitNoSpace("");
    RawSplitAtSpace("", "");
    assert "" + " " + "" == " ";
    RawSplitAtSpace("b", " ");
    assert "b" + " " + " " == "b  ";
    RawSplitAtSpace("a", "b  ");
    assert "a" + " " + "b  " == "a b  ";
  }

  /** Trailing empty fields disappear. */
  lemma SplitTrailingSpaces()
    ensures Split("a b  ") == ["a", "b"]
  {
    assert ' ' in "a b  " by { assert "a b  "[1] == ' '; }
    RawSplitTrailingSpaces();
    var raw: seq<string> := ["a", "b", "", ""];
    assert raw[..3] == ["a", "b", ""] && raw[..3][..2] == ["a", "b"];
    assert DropTrailingEmpty(raw) == DropTrailingEmpty(raw[..3]);
  }

  /** A lone space splits into nothing, the empty string into itself. */
  lemma SplitBlank()
    ensures Split(" ") == []
    ensures Split("") == [""]
  {
    RawSplitNoSpace("");
    RawSplitAtSpace("", "");
    assert "" + " " + "" == " ";
    assert ' ' in " " by { assert " "[0] == ' '; }
    assert ["", ""][..1] == [""];
  }
}
