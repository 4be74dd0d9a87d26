/** The display label of a column: `formatLabel` puts a space before every
    ASCII capital of the field name (the global regular-expression replace
    of `[A-Z]` by a space and the letter) and then trims the result. */
module Labels {
  import opened Strings

  /** The regular-expression class `[A-Z]`: ASCII capitals only. */
  predicate IsUpper(c: char) {
    'A' <= c <= 'Z'
  }

  function CountUpper(s: string): nat {
    if s == [] then 0 else (if IsUpper(s[0]) then 1 else 0) + CountUpper(s[1..])
  }

  /** Deletes every space character. */
  function RemoveSpaces(s: string): string {
    if s == [] then [] else (if s[0] == ' ' then [] else [s[0]]) + RemoveSpaces(s[1..])
  }

  /** The replace step: each capital `C` becomes the two characters ` C`,
      so the result is longer than `s` by the number of capitals and loses
      them again when its spaces are deleted. */
  function SpaceBeforeCapitals(s: string): (r: string)
    ensures |r| == |s| + CountUpper(s)
    ensures ' ' !in s ==> RemoveSpaces(r) == s
  {
    if s == [] then []
    else
      var head := if IsUpper(s[0]) then [' ', s[0]] else [s[0]];
      var r := head + SpaceBeforeCapitals(s[1..]);
      assert r[|head|..] == SpaceBeforeCapitals(s[1..]);
      RemoveSpacesAppend(head, SpaceBeforeCapitals(s[1..]));
      r
  }

  lemma {:induction false} RemoveSpacesAppend(a: string, b: string)
    ensures RemoveSpaces(a + b) == RemoveSpaces(a) + RemoveSpaces(b)
  {
    if a != [] {
      assert (a + b)[1..] == a[1..] + b;
      RemoveSpacesAppend(a[1..], b);
    } else {
      assert a + b == b;
    }
  }

  /** `formatLabel(fieldName)`: the replace step followed by `trim`. */
  function FormatLabel(name: string): (r: string)
    ensures r != [] ==> !IsWhitespace(r[0]) && !IsWhitespace(r[|r| - 1])
    ensures |r| <= |name| + CountUpper(name)
  {
    Trim(SpaceBeforeCapitals(name))
  }

  /** Reference definition of a label, independent of the replace-and-trim
      formulation: the name's characters in order, with one space in front
      of every capital except one that opens the label. */
  function SpacedLabel(name: string, atStart: bool): string {
    if name == [] then []
    else
      (if IsUpper(name[0]) && !atStart then [' ', name[0]] else [name[0]])
      + SpacedLabel(name[1..], false)
  }

  lemma {:induction false} SpacedLabelInside(name: string)
    ensures SpacedLabel(name, false) == SpaceBeforeCapitals(name)
  {
    if name != [] {
      SpacedLabelInside(name[1..]);
    }
  }

  lemma {:induction false} SpacedLabelLast(name: string, atStart: bool)
    requires name != []
    ensures var r := SpacedLabel(name, atStart); r != [] && r[|r| - 1] == name[|name| - 1]
  {
    if |name| > 1 {
      SpacedLabelLast(name[1..], false);
    }
  }

  /** Before trimming, the replace step differs from the reference label
      only by the space it puts in front of a leading capital. */
  lemma SpacedLabelOpening(name: string)
    requires name != []
    ensures SpaceBeforeCapitals(name)
      == (if IsUpper(name[0]) then [' '] else []) + SpacedLabel(name, true)
  {
  }

  /** For a field name without whitespace, replace-and-trim yields exactly
      the reference label: the only whitespace `trim` meets is the space the
      replace put in front of a leading capital. */
  lemma FormatLabelIsSpaced(name: string)
    requires NoWhitespace(name)
    ensures FormatLabel(name) == SpacedLabel(name, true)
  {
    if name != [] {
      FormatLabelBetweenNonBlanks(name);
    }
  }

  /** Only the ends of the name matter to `trim`. */
  lemma FormatLabelBetweenNonBlanks(name: string)
    requires name != [] && !IsWhitespace(name[0]) && !IsWhitespace(name[|name| - 1])
    ensures FormatLabel(name) == SpacedLabel(name, true)
  {
    var spaced := SpacedLabel(name, true);
    assert spaced != [] && !IsWhitespace(spaced[0]) && !IsWhitespace(spaced[|spaced| - 1]) by {
      SpacedLabelLast(name, true);
    }
    if IsUpper(name[0]) {
      assert SpaceBeforeCapitals(name) == [' '] + spaced by {
        SpacedLabelOpening(name);
      }
      TrimLeadingSpace(spaced);
    } else {
      assert SpaceBeforeCapitals(name) == spaced by {
        SpacedLabelOpening(name);
        assert [] + spaced == spaced;
      }
      TrimUnchanged(spaced);
    }
  }

  /** The label is empty exactly when the name is, and a label of a name
      without whitespace starts and ends with the name's own first and last
      characters, so never with a space. */
  lemma LabelEnds(name: string)
    requires NoWhitespace(name)
    ensures var r := FormatLabel(name);
      && (r == [] <==> name == [])
      && (name != [] ==> r[0] == name[0] && r[|r| - 1] == name[|name| - 1])
  {
    FormatLabelIsSpaced(name);
    if name != [] {
      SpacedLabelLast(name, true);
    }
  }

  lemma {:induction false} SpacedLabelRemoveSpaces(name: string, atStart: bool)
    requires ' ' !in name
    ensures RemoveSpaces(SpacedLabel(name, atStart)) == name
  {
    if name != [] {
      var head := if IsUpper(name[0]) && !atStart then [' ', name[0]] else [name[0]];
      RemoveSpacesAppend(head, SpacedLabel(name[1..], false));
      SpacedLabelRemoveSpaces(name[1..], false);
      assert [name[0]] + name[1..] == name;
    }
  }

  /** Deleting the spaces of a label gives the field name back. */
  lemma LabelRemoveSpaces(name: string)
    requires NoWhitespace(name)
    ensures RemoveSpaces(FormatLabel(name)) == name
  {
    FormatLabelIsSpaced(name);
    assert ' ' !in name;
    SpacedLabelRemoveSpaces(name, true);
  }

  /** One extra character per capital, except a leading one. */
  lemma LabelLength(name: string)
    requires NoWhitespace(name)
    ensures |FormatLabel(name)|
      == |name| + CountUpper(name) - (if name != [] && IsUpper(name[0]) then 1 else 0)
  {
    FormatLabelIsSpaced(name);
    if name != [] {
      SpacedLabelInside(name[1..]);
    }
  }

  lemma {:induction false} SpacedLabelNoCapitals(name: string, atStart: bool)
    requires CountUpper(name) == 0
    ensures SpacedLabel(name, atStart) == name
  {
    if name != [] {
      SpacedLabelNoCapitals(name[1..], false);
      assert [name[0]] + name[1..] == name;
    }
  }

  /** A name without capitals is its own label. */
  lemma LabelNoCapitals(name: string)
    requires NoWhitespace(name) && CountUpper(name) == 0
    ensures FormatLabel(name) == name
  {
  }

  lemma {:induction false} SpacedLabelAppend(a: string, b: string, atStart: bool)
    ensures SpacedLabel(a + b, atStart) == SpacedLabel(a, atStart) + SpacedLabel(b, atStart && a == [])
  {
    if a == [] {
      assert a + b == b;
    } else {
      assert (a + b)[0] == a[0] && (a + b)[1..] == a[1..] + b;
      SpacedLabelAppend(a[1..], b, false);
    }
  }

  /** A capitalised word: one capital, then no further capitals. */
  predicate IsCapitalised(w: string) {
    |w| >= 1 && IsUpper(w[0]) && CountUpper(w[1..]) == 0
  }

  function Concat(words: seq<string>): string {
    if words == [] then "" else words[0] + Concat(words[1..])
  }

  lemma SpacedLabelWord(w: string, atStart: bool)
    requires IsCapitalised(w)
    ensures SpacedLabel(w, atStart) == (if atStart then "" else " ") + w
  {
    SpacedLabelNoCapitals(w[1..], false);
    assert [w[0]] + w[1..] == w;
  }

  lemma {:induction false} SpacedLabelWords(words: seq<string>, atStart: bool)
    requires |words| >= 1 && forall w :: w in words ==> IsCapitalised(w)
    ensures SpacedLabel(Concat(words), atStart) == (if atStart then "" else " ") + Join(words, ' ')
  {
    var w := words[0];
    var rest := Concat(words[1..]);
    assert SpacedLabel(w + rest, atStart) == SpacedLabel(w, atStart) + SpacedLabel(rest, false) by {
      assert w in words;
      SpacedLabelAppend(w, rest, atStart);
    }
    assert SpacedLabel(w, atStart) == (if atStart then "" else " ") + w by {
      assert w in words;
      SpacedLabelWord(w, atStart);
    }
    var pre := if atStart then "" else " ";
    assert Concat(words) == w + rest;
    if |words| == 1 {
      assert rest == "" && w + rest == w;
      assert SpacedLabel(rest, false) == "";
      assert Join(words, ' ') == w;
      assert pre + w + "" == pre + w;
    } else {
      var tail := Join(words[1..], ' ');
      assert SpacedLabel(rest, false) == " " + tail by {
        forall v | v in words[1..] ensures IsCapitalised(v) {
          assert v in words;
        }
        SpacedLabelWords(words[1..], false);
      }
      assert Join(words, ' ') == w + [' '] + tail;
      assert (pre + w) + (" " + tail) == pre + (w + [' '] + tail);
    }
  }

  lemma {:induction false} ConcatNoWhitespace(words: seq<string>)
    requires forall w :: w in words ==> NoWhitespace(w)
    ensures NoWhitespace(Concat(words))
  {
    if words != [] {
      assert words[0] in words;
      forall v | v in words[1..] ensures NoWhitespace(v) {
        assert v in words;
      }
      ConcatNoWhitespace(words[1..]);
      var c := Concat(words);
      forall k | 0 <= k < |c| ensures !IsWhitespace(c[k]) {
        if k < |words[0]| {
          assert c[k] == words[0][k];
        } else {
          assert c[k] == Concat(words[1..])[k - |words[0]|];
        }
      }
    }
  }

  /** A camel-case name made of capitalised words is labelled with those
      words separated by single spaces. */
  lemma CamelCaseLabel(words: seq<string>)
    requires |words| >= 1
    requires forall w :: w in words ==> IsCapitalised(w) && NoWhitespace(w)
    ensures FormatLabel(Concat(words)) == Join(words, ' ')
  {
    ConcatNoWhitespace(words);
    FormatLabelIsSpaced(Concat(words));
    SpacedLabelWords(words, true);
  }

  /** A one-word name is its own label. */
  lemma LabelExampleName()
    ensures FormatLabel("Name") == "Name"
  {
    var words := ["Name"];
    assert IsCapitalised("Name") && NoWhitespace("Name");
    assert Concat(words) == "Name" by {
      assert Concat(words) == "Name" + Concat([]);
    }
    CamelCaseLabel(words);
  }

  /** A two-word name gains one space between its words. */
  lemma LabelExampleCloseDate()
    ensures FormatLabel("CloseDate") == "Close Date"
  {
    var words := ["Close", "Date"];
    assert IsCapitalised("Close") && IsCapitalised("Date");
    assert NoWhitespace("Close") && NoWhitespace("Date");
    assert Concat(words) == "CloseDate";
    assert Join(words, ' ') == "Close Date";
    CamelCaseLabel(words);
  }
}
