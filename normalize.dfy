/**
 * normalize_string of flask_servers/flask2.py: strip the surrounding
 * whitespace, turn every run of whitespace into one space, then drop the
 * control characters other than tab, line feed and carriage return.
 * Whitespace is Python's `str.isspace`, which is also what `\s` matches in
 * a `str` pattern.
 */
module Normalize {
  import opened Wrappers

  /** Python's whitespace: the characters for which `str.isspace()` holds. */
  predicate IsSpace(c: char) {
    || ('\t' <= c <= '\r')                 // tab, line feed, vertical tab, form feed, carriage return
    || ('\U{1c}' <= c <= '\U{1f}')         // the four information separators
    || c == ' ' || c == '\U{85}' || c == '\U{a0}' || c == '\U{1680}'
    || ('\U{2000}' <= c <= '\U{200a}')
    || c == '\U{2028}' || c == '\U{2029}' || c == '\U{202f}' || c == '\U{205f}' || c == '\U{3000}'
  }

  /** `s.lstrip()`: the suffix left after the leading whitespace. */
  function StripLeading(s: string): (r: string)
    ensures |r| <= |s|
    ensures r == [] || !IsSpace(r[0])
    ensures forall i :: 0 <= i < |s| - |r| ==> IsSpace(s[i])
  {
    if s != [] && IsSpace(s[0]) then StripLeading(s[1..]) else s
  }

  /** What lstrip leaves is a suffix of its input. */
  lemma {:induction false} StripLeadingIsSuffix(s: string)
    ensures StripLeading(s) == s[|s| - |StripLeading(s)|..]
  {
    if s != [] && IsSpace(s[0]) {
      StripLeadingIsSuffix(s[1..]);
      assert s[1..][|s| - 1 - |StripLeading(s)|..] == s[|s| - |StripLeading(s)|..];
    }
  }

  /** `s.rstrip()`: the prefix left before the trailing whitespace. */
  function StripTrailing(s: string): (r: string)
    ensures |r| <= |s|
    ensures r == [] || !IsSpace(r[|r| - 1])
    ensures forall i :: |r| <= i < |s| ==> IsSpace(s[i])
  {
    if s != [] && IsSpace(s[|s| - 1]) then StripTrailing(s[..|s| - 1]) else s
  }

  /** What rstrip leaves is a prefix of its input. */
  lemma {:induction false} StripTrailingIsPrefix(s: string)
    ensures StripTrailing(s) == s[..|StripTrailing(s)|]
  {
    if s != [] && IsSpace(s[|s| - 1]) {
      StripTrailingIsPrefix(s[..|s| - 1]);
    }
  }

  /** `s.strip()`. */
  function Strip(s: string): (r: string)
    ensures |r| <= |s|
    ensures r == [] || (!IsSpace(r[0]) && !IsSpace(r[|r| - 1]))
  {
    StripTrailingIsPrefix(StripLeading(s));
    StripTrailing(StripLeading(s))
  }

  /**
   * `re.sub(r'\s+', ' ', s)`: every maximal run of whitespace becomes a
   * single space; the other characters stay, in order.
   */
  function Collapse(s: string): (r: string)
    ensures |r| <= |s|
    ensures r == [] <==> s == []
    ensures r != [] ==> (r[0] == ' ' <==> IsSpace(s[0]))
    ensures r != [] ==> (r[|r| - 1] == ' ' <==> IsSpace(s[|s| - 1]))
  {
    if s == [] then []
    else if IsSpace(s[0]) then
      StripLeadingIsSuffix(s[1..]);
      [' '] + Collapse(StripLeading(s[1..]))
    else [s[0]] + Collapse(s[1..])
  }

  /**
   * After the collapse the only whitespace left is the ordinary space, every
   * other character comes from the input, and no space is followed by
   * whitespace.
   */
  lemma {:induction false} CollapseLeavesSingleSpaces(s: string)
    ensures var r := Collapse(s);
            && (forall c :: c in r ==> c == ' ' || (!IsSpace(c) && c in s))
            && (forall i :: 0 <= i < |r| - 1 && r[i] == ' ' ==> !IsSpace(r[i + 1]))
  {
    if s != [] {
      if IsSpace(s[0]) {
        var t := StripLeading(s[1..]);
        StripLeadingIsSuffix(s[1..]);
        CollapseLeavesSingleSpaces(t);
        assert forall c :: c in t ==> c in s;
        assert Collapse(s) == [' '] + Collapse(t);
      } else {
        CollapseLeavesSingleSpaces(s[1..]);
        assert Collapse(s) == [s[0]] + Collapse(s[1..]);
      }
    }
  }

  /** The characters the comprehension keeps: code 32 and above, and tab, line feed, carriage return. */
  predicate Printable(c: char) {
    c as int >= 32 || c == '\n' || c == '\r' || c == '\t'
  }

  /** `''.join(char for char in s if ord(char) >= 32 or char in '\n\r\t')`. */
  function DropControls(s: string): (r: string)
    ensures |r| <= |s|
    ensures |r| == |s| <==> forall i :: 0 <= i < |s| ==> Printable(s[i])
  {
    if s == [] then []
    else (if Printable(s[0]) then [s[0]] else []) + DropControls(s[1..])
  }

  /** The comprehension keeps only printable characters of the input. */
  lemma {:induction false} DropControlsKeepsPrintable(s: string)
    ensures forall c :: c in DropControls(s) ==> Printable(c) && c in s
  {
    if s != [] {
      DropControlsKeepsPrintable(s[1..]);
    }
  }

  /**
   * normalize_string; None stands for Python's None. Empty and None give
   * the empty string; the result is never longer than the input, and every
   * character of it is an ordinary space or a character of code 32 or more
   * that is not whitespace.
   */
  function NormalizeString(s: Option<string>): (r: string)
    ensures s.None? || s.value == "" ==> r == ""
    ensures s.Some? ==> |r| <= |s.value|
    ensures forall i :: 0 <= i < |r| ==> r[i] as int >= 32
    ensures forall i :: 0 <= i < |r| ==> r[i] == ' ' || !IsSpace(r[i])
  {
    if s.None? || s.value == "" then ""
    else
      var collapsed := Collapse(Strip(s.value));
      var r := DropControls(collapsed);
      assert forall i :: 0 <= i < |r| ==> r[i] == ' ' || !IsSpace(r[i]) by {
        CollapseLeavesSingleSpaces(Strip(s.value));
        DropControlsKeepsPrintable(collapsed);
        assert forall i :: 0 <= i < |r| ==> r[i] in collapsed;
      }
      assert forall i :: 0 <= i < |r| ==> r[i] as int >= 32 by {
        DropControlsKeepsPrintable(collapsed);
        forall i | 0 <= i < |r| ensures r[i] as int >= 32 {
          VisibleWhenPrintable(r[i]);
        }
      }
      r
  }

  /** A kept character that is an ordinary space or not whitespace at all has code 32 or more. */
  lemma VisibleWhenPrintable(c: char)
    requires Printable(c) && (c == ' ' || !IsSpace(c))
    ensures c as int >= 32
  {
  }

  /** A string normalize_string returns unchanged. */
  predicate Clean(s: string) {
    && (s == [] || (s[0] != ' ' && s[|s| - 1] != ' '))
    && (forall i :: 0 <= i < |s| ==> s[i] as int >= 32 && (IsSpace(s[i]) ==> s[i] == ' '))
    && (forall i :: 0 <= i < |s| - 1 ==> !(s[i] == ' ' && s[i + 1] == ' '))
  }

  /** Whitespace only as single ordinary spaces. */
  predicate SingleSpaced(s: string) {
    && (forall i :: 0 <= i < |s| ==> IsSpace(s[i]) ==> s[i] == ' ')
    && (forall i :: 0 <= i < |s| - 1 ==> !(s[i] == ' ' && s[i + 1] == ' '))
  }

  /** Collapsing a single-spaced string changes nothing. */
  lemma {:induction false} CollapseSingleSpaced(s: string)
    requires SingleSpaced(s)
    ensures Collapse(s) == s
  {
    if s != [] {
      assert SingleSpaced(s[1..]);
      if IsSpace(s[0]) {
        assert s[1..] == [] || !IsSpace(s[1]);
        assert StripLeading(s[1..]) == s[1..];
      }
      CollapseSingleSpaced(s[1..]);
    }
  }

  /** Stripping a string without surrounding whitespace changes nothing. */
  lemma StripUnpadded(s: string)
    requires s == [] || (!IsSpace(s[0]) && !IsSpace(s[|s| - 1]))
    ensures Strip(s) == s
  {
    assert StripLeading(s) == s;
  }

  /** Dropping controls from a string without them changes nothing. */
  lemma {:induction false} DropControlsOfPrintable(s: string)
    requires forall i :: 0 <= i < |s| ==> s[i] as int >= 32
    ensures DropControls(s) == s
  {
    if s != [] {
      assert Printable(s[0]);
      DropControlsOfPrintable(s[1..]);
    }
  }

  lemma CleanMeansUnpadded(s: string)
    requires Clean(s)
    ensures s == [] || (!IsSpace(s[0]) && !IsSpace(s[|s| - 1]))
  {
  }

  lemma CleanMeansSingleSpaced(s: string)
    requires Clean(s)
    ensures SingleSpaced(s)
  {
  }

  lemma CleanMeansPrintable(s: string)
    requires Clean(s)
    ensures forall i :: 0 <= i < |s| ==> s[i] as int >= 32
  {
  }

  /**
   * A string without surrounding whitespace, with single ordinary spaces
   * as its only whitespace and without control characters is returned as
   * it is.
   */
  lemma CleanIsUnchanged(s: string)
    requires Clean(s)
    ensures NormalizeString(Some(s)) == s
  {
    if s != [] {
      CleanMeansUnpadded(s);
      StripUnpadded(s);
      CleanMeansSingleSpaced(s);
      CollapseSingleSpaced(s);
      CleanMeansPrintable(s);
      DropControlsOfPrintable(s);
    }
  }

  /** One step of the collapse on a character that is not whitespace. */
  lemma CollapseNonSpace(c: char, t: string)
    requires !IsSpace(c)
    ensures Collapse([c] + t) == [c] + Collapse(t)
  {
    assert ([c] + t)[1..] == t;
  }

  /** One step of the collapse on a space followed by a non-whitespace character. */
  lemma CollapseLoneSpace(c: char, t: string)
    requires !IsSpace(c)
    ensures Collapse([' '] + ([c] + t)) == [' '] + Collapse([c] + t)
  {
    assert ([' '] + ([c] + t))[1..] == [c] + t;
  }

  /** One step of the collapse on two spaces followed by a non-whitespace character. */
  lemma CollapseDoubleSpace(c: char, t: string)
    requires !IsSpace(c)
    ensures Collapse([' ', ' '] + ([c] + t)) == [' '] + Collapse([c] + t)
  {
    var u := [c] + t;
    assert ([' ', ' '] + u)[1..] == [' '] + u;
    assert ([' '] + u)[1..] == u;
    assert StripLeading(u) == u;
    assert StripLeading([' '] + u) == u;
  }

  /** One step of the comprehension. */
  lemma DropControlsStep(c: char, t: string)
    ensures DropControls([c] + t) == (if Printable(c) then [c] else []) + DropControls(t)
  {
    assert ([c] + t)[1..] == t;
  }

  /** The collapse leaves " y" as it is. */
  lemma CollapseKeepsSpaceBefore(y: char)
    requires !IsSpace(y)
    ensures Collapse([' ', y]) == [' ', y]
  {
    CollapseNonSpace(y, []);
    CollapseLoneSpace(y, []);
    assert [' ', y] == [' '] + ([y] + []);
  }

  /** The collapse leaves "\x01 y" as it is. */
  lemma CollapseKeepsControlBefore(y: char)
    requires !IsSpace(y)
    ensures Collapse(['\U{1}', ' ', y]) == ['\U{1}', ' ', y]
  {
    var ctl := '\U{1}';
    assert !IsSpace(ctl);
    CollapseKeepsSpaceBefore(y);
    CollapseNonSpace(ctl, [' ', y]);
    assert [ctl, ' ', y] == [ctl] + [' ', y];
  }

  /** The collapse leaves " \x01 y" as it is. */
  lemma CollapseKeepsSpacedControl(y: char)
    requires !IsSpace(y)
    ensures Collapse([' ', '\U{1}', ' ', y]) == [' ', '\U{1}', ' ', y]
  {
    var ctl := '\U{1}';
    assert !IsSpace(ctl);
    var u := [ctl, ' ', y];
    CollapseKeepsControlBefore(y);
    assert [ctl] + [' ', y] == u;
    CollapseLoneSpace(ctl, [' ', y]);
    assert [' '] + u == [' ', ctl, ' ', y];
  }

  /** The collapse leaves "x \x01 y" as it is. */
  lemma CollapseKeepsLoneControl(x: char, y: char)
    requires !IsSpace(x) && !IsSpace(y)
    ensures Collapse([x, ' ', '\U{1}', ' ', y]) == [x, ' ', '\U{1}', ' ', y]
  {
    var t := [' ', '\U{1}', ' ', y];
    CollapseKeepsSpacedControl(y);
    CollapseNonSpace(x, t);
    assert [x] + t == [x, ' ', '\U{1}', ' ', y];
  }

  /** The comprehension turns "x \x01 y" into "x  y". */
  lemma DropControlsLeavesDoubleSpace(x: char, y: char)
    requires Printable(x) && Printable(y)
    ensures DropControls([x, ' ', '\U{1}', ' ', y]) == [x, ' ', ' ', y]
  {
    var ctl := '\U{1}';
    DropControlsStep(y, []);
    DropControlsStep(' ', [y]);
    DropControlsStep(ctl, [' ', y]);
    DropControlsStep(' ', [ctl, ' ', y]);
    DropControlsStep(x, [' ', ctl, ' ', y]);
    assert [x, ' ', ctl, ' ', y] == [x] + [' ', ctl, ' ', y];
    assert [' ', ctl, ' ', y] == [' '] + [ctl, ' ', y];
    assert [ctl, ' ', y] == [ctl] + [' ', y];
    assert [' ', y] == [' '] + [y];
    assert [y] == [y] + [];
  }

  /** The collapse and the comprehension turn "x  y" into "x y". */
  lemma SecondPassCollapses(x: char, y: char)
    requires !IsSpace(x) && !IsSpace(y) && Printable(x) && Printable(y)
    ensures DropControls(Collapse([x, ' ', ' ', y])) == [x, ' ', y]
  {
    CollapseDoubleSpace(y, []);
    assert [' ', ' ', y] == [' ', ' '] + ([y] + []);
    CollapseNonSpace(x, [' ', ' ', y]);
    assert [x, ' ', ' ', y] == [x] + [' ', ' ', y];
    CollapseNonSpace(y, []);
    assert Collapse([x, ' ', ' ', y]) == [x, ' ', y];
    DropControlsStep(y, []);
    DropControlsStep(' ', [y]);
    DropControlsStep(x, [' ', y]);
    assert [x, ' ', y] == [x] + [' ', y];
    assert [' ', y] == [' '] + [y];
    assert [y] == [y] + [];
  }

  /**
   * normalize_string is not idempotent: a control character between two
   * spaces is dropped after the collapse, so the result keeps a double
   * space that a second pass collapses. For any visible characters `x` and
   * `y`, "x \x01 y" normalizes to "x  y", and "x  y" to "x y".
   */
  lemma NormalizeIsNotIdempotent(x: char, y: char)
    requires !IsSpace(x) && !IsSpace(y) && Printable(x) && Printable(y)
    ensures NormalizeString(Some([x, ' ', '\U{1}', ' ', y])) == [x, ' ', ' ', y]
    ensures NormalizeString(Some([x, ' ', ' ', y])) == [x, ' ', y]
  {
    StripUnpadded([x, ' ', '\U{1}', ' ', y]);
    CollapseKeepsLoneControl(x, y);
    DropControlsLeavesDoubleSpace(x, y);
    StripUnpadded([x, ' ', ' ', y]);
    SecondPassCollapses(x, y);
  }

  // ----- what survives -----

  /** A character normalize_string must keep: neither whitespace nor a control character. */
  predicate IsVisible(c: char) {
    !IsSpace(c) && c as int >= 32
  }

  /** The visible characters of `s`, in order. */
  function Visible(s: string): string {
    if s == [] then [] else (if IsVisible(s[0]) then [s[0]] else []) + Visible(s[1..])
  }

  /** Taking the visible characters distributes over concatenation. */
  lemma {:induction false} VisibleOfConcat(a: string, b: string)
    ensures Visible(a + b) == Visible(a) + Visible(b)
  {
    if a == [] {
      assert a + b == b;
    } else {
      assert (a + b)[0] == a[0];
      assert (a + b)[1..] == a[1..] + b;
      VisibleOfConcat(a[1..], b);
    }
  }

  /** lstrip drops only whitespace, so every visible character survives, in order. */
  lemma {:induction false} StripLeadingKeepsVisible(s: string)
    ensures Visible(StripLeading(s)) == Visible(s)
  {
    if s != [] && IsSpace(s[0]) {
      StripLeadingKeepsVisible(s[1..]);
    }
  }

  /** rstrip drops only whitespace, so every visible character survives, in order. */
  lemma {:induction false} StripTrailingKeepsVisible(s: string)
    ensures Visible(StripTrailing(s)) == Visible(s)
  {
    if s != [] && IsSpace(s[|s| - 1]) {
      var init := s[..|s| - 1];
      StripTrailingKeepsVisible(init);
      assert s == init + [s[|s| - 1]];
      VisibleOfConcat(init, [s[|s| - 1]]);
      assert Visible([s[|s| - 1]]) == [];
    }
  }

  /**
   * `strip()` is a slice of its input, and everything it drops at either
   * end is whitespace.
   */
  lemma StripIsTrimmedSlice(s: string)
    ensures exists i, j :: 0 <= i <= j <= |s| && Strip(s) == s[i..j]
                           && (forall k :: 0 <= k < i ==> IsSpace(s[k]))
                           && (forall k :: j <= k < |s| ==> IsSpace(s[k]))
  {
    var l := StripLeading(s);
    StripLeadingIsSuffix(s);
    var i := |s| - |l|;
    assert l == s[i..];
    var r := StripTrailing(l);
    StripTrailingIsPrefix(l);
    var j := i + |r|;
    assert r == s[i..j];
    forall k | j <= k < |s|
      ensures IsSpace(s[k])
    {
      assert s[k] == l[k - i];
      assert IsSpace(l[k - i]);
    }
    assert Strip(s) == r;
  }

  /** `strip()` keeps every visible character, in order. */
  lemma StripKeepsVisible(s: string)
    ensures Visible(Strip(s)) == Visible(s)
  {
    StripLeadingKeepsVisible(s);
    StripTrailingKeepsVisible(StripLeading(s));
  }

  /** The collapse changes only whitespace, so every visible character survives, in order. */
  lemma {:induction false} CollapseKeepsVisible(s: string)
    ensures Visible(Collapse(s)) == Visible(s)
    decreases |s|
  {
    if s != [] {
      if IsSpace(s[0]) {
        var t := StripLeading(s[1..]);
        CollapseKeepsVisible(t);
        StripLeadingKeepsVisible(s[1..]);
        assert ([' '] + Collapse(t))[1..] == Collapse(t);
      } else {
        CollapseKeepsVisible(s[1..]);
        assert ([s[0]] + Collapse(s[1..]))[1..] == Collapse(s[1..]);
      }
    }
  }

  /** The comprehension drops no visible character and keeps their order. */
  lemma {:induction false} DropControlsKeepsVisible(s: string)
    ensures Visible(DropControls(s)) == Visible(s)
  {
    if s != [] {
      DropControlsKeepsVisible(s[1..]);
      var head := if Printable(s[0]) then [s[0]] else [];
      VisibleOfConcat(head, DropControls(s[1..]));
      if Printable(s[0]) {
        assert Visible([s[0]]) == (if IsVisible(s[0]) then [s[0]] else []) + Visible([]);
      }
    }
  }

  /**
   * The comprehension keeps every printable character of its input, in its
   * place: what comes out is what the part before it gives, then the
   * character itself when it is printable, then what the part after it gives.
   */
  lemma DropControlsKeepsEveryPrintable(s: string)
    ensures forall i :: 0 <= i < |s| && Printable(s[i]) ==> s[i] in DropControls(s)
    ensures forall i :: 0 <= i < |s| ==>
              DropControls(s) == DropControls(s[..i]) + (if Printable(s[i]) then [s[i]] else []) + DropControls(s[i + 1..])
  {
    forall i | 0 <= i < |s|
      ensures DropControls(s) == DropControls(s[..i]) + (if Printable(s[i]) then [s[i]] else []) + DropControls(s[i + 1..])
    {
      DropControlsAt(s, i);
    }
  }

  /** The comprehension around position `i`. */
  lemma DropControlsAt(s: string, i: int)
    requires 0 <= i < |s|
    ensures DropControls(s) == DropControls(s[..i]) + (if Printable(s[i]) then [s[i]] else []) + DropControls(s[i + 1..])
  {
    var before, after := s[..i], s[i + 1..];
    var rest := [s[i]] + after;
    SplitAt(s, i);
    DropControlsOfConcat(before, rest);
    DropControlsStep(s[i], after);
    var mid := if Printable(s[i]) then [s[i]] else [];
    ConcatRegroup(DropControls(before), mid, DropControls(after));
  }

  /** A string is what comes before position `i`, the character there, and what comes after. */
  lemma SplitAt(s: string, i: int)
    requires 0 <= i < |s|
    ensures s == s[..i] + ([s[i]] + s[i + 1..])
  {
    assert s[i..] == [s[i]] + s[i + 1..];
    assert s == s[..i] + s[i..];
  }

  /**
   * normalize_string removes whitespace and control characters only: its
   * result has exactly the visible characters of its input, in the same
   * order.
   */
  lemma NormalizeKeepsVisible(s: string)
    ensures Visible(NormalizeString(Some(s))) == Visible(s)
  {
    if s != "" {
      StripKeepsVisible(s);
      CollapseKeepsVisible(Strip(s));
      DropControlsKeepsVisible(Collapse(Strip(s)));
    }
  }

  // ----- where the spaces go -----

  /** The comprehension works character by character, so it distributes over concatenation. */
  lemma {:induction false} DropControlsOfConcat(a: string, b: string)
    ensures DropControls(a + b) == DropControls(a) + DropControls(b)
  {
    if a == [] {
      assert a + b == b;
    } else {
      var c, t := a[0], a[1..];
      var head := if Printable(c) then [c] else [];
      assert a == [c] + t;
      ConcatRegroup([c], t, b);
      DropControlsStep(c, t + b);
      DropControlsStep(c, t);
      DropControlsOfConcat(t, b);
      ConcatRegroup(head, DropControls(t), DropControls(b));
    }
  }

  /** The collapse leaves a string without whitespace as it is. */
  lemma {:induction false} CollapseWithoutSpace(s: string)
    requires forall i :: 0 <= i < |s| ==> !IsSpace(s[i])
    ensures Collapse(s) == s
  {
    if s != [] {
      assert forall i :: 0 <= i < |s| - 1 ==> s[1..][i] == s[i + 1];
      CollapseWithoutSpace(s[1..]);
    }
  }

  /** lstrip removes a whitespace run and stops at the first character after it. */
  lemma {:induction false} StripLeadingRun(w: string, b: string)
    requires forall i :: 0 <= i < |w| ==> IsSpace(w[i])
    requires b == [] || !IsSpace(b[0])
    ensures StripLeading(w + b) == b
  {
    if w == [] {
      assert w + b == b;
    } else {
      assert (w + b)[0] == w[0];
      assert (w + b)[1..] == w[1..] + b;
      StripLeadingRun(w[1..], b);
    }
  }

  /** rstrip removes a whitespace run and stops at the last character before it. */
  lemma {:induction false} StripTrailingRun(a: string, w: string)
    requires a == [] || !IsSpace(a[|a| - 1])
    requires forall i :: 0 <= i < |w| ==> IsSpace(w[i])
    ensures StripTrailing(a + w) == a
  {
    if w == [] {
      assert a + w == a;
    } else {
      var init := w[..|w| - 1];
      assert (a + w)[|a + w| - 1] == w[|w| - 1];
      assert (a + w)[..|a + w| - 1] == a + init;
      StripTrailingRun(a, init);
    }
  }

  /** lstrip of `a + b` stops inside `a` when `a` ends in a non-whitespace character. */
  lemma {:induction false} StripLeadingStopsEarly(a: string, b: string)
    requires a != [] && !IsSpace(a[|a| - 1])
    ensures StripLeading(a + b) == StripLeading(a) + b
  {
    assert (a + b)[0] == a[0];
    if IsSpace(a[0]) {
      assert (a + b)[1..] == a[1..] + b;
      StripLeadingStopsEarly(a[1..], b);
    }
  }

  /**
   * The collapse turns a whitespace run between two stretches of text into
   * one space, and treats the stretches on either side independently.
   */
  lemma {:induction false} CollapseAcrossRun(a: string, w: string, b: string)
    requires a == [] || !IsSpace(a[|a| - 1])
    requires w != [] && forall i :: 0 <= i < |w| ==> IsSpace(w[i])
    requires b == [] || !IsSpace(b[0])
    ensures Collapse(a + w + b) == Collapse(a) + [' '] + Collapse(b)
    decreases |a|
  {
    var tail := w + b;
    ConcatRegroup(a, w, b);
    if a == [] {
      assert a + tail == tail;
      CollapseRunFirst(w, b);
    } else {
      var a' := if IsSpace(a[0]) then StripLeading(a[1..]) else a[1..];
      var head := if IsSpace(a[0]) then ' ' else a[0];
      CollapseStep(a, tail);
      CollapseAcrossRun(a', w, b);
      ConcatRegroup(a', w, b);
      var ca', cb := Collapse(a'), Collapse(b);
      assert Collapse(a' + tail) == ca' + [' '] + cb;
      assert Collapse(a + tail) == [head] + (ca' + [' '] + cb);
      assert Collapse(a) == [head] + ca';
      ConcatRegroup([head], ca' + [' '], cb);
      ConcatRegroup([head], ca', [' ']);
    }
  }

  /**
   * One step of the collapse on `a + tail`, for `a` ending without
   * whitespace: the first character or leading run of `a` gives one
   * character, and the rest of `a` still ends in `a`'s last character.
   */
  lemma CollapseStep(a: string, tail: string)
    requires a != [] && !IsSpace(a[|a| - 1])
    ensures var a' := if IsSpace(a[0]) then StripLeading(a[1..]) else a[1..];
            var head := if IsSpace(a[0]) then ' ' else a[0];
            && |a'| < |a| && (a' == [] || !IsSpace(a'[|a'| - 1]))
            && Collapse(a + tail) == [head] + Collapse(a' + tail)
            && Collapse(a) == [head] + Collapse(a')
  {
    if IsSpace(a[0]) {
      CollapseLeadingRun(a, tail);
    } else {
      CollapseFront(a, tail);
    }
  }

  /** Concatenation groups either way. */
  lemma ConcatRegroup(a: string, w: string, b: string)
    ensures a + w + b == a + (w + b)
  {
  }

  /** The collapse passes a non-whitespace first character through. */
  lemma CollapseFront(a: string, tail: string)
    requires a != [] && !IsSpace(a[0])
    ensures Collapse(a + tail) == [a[0]] + Collapse(a[1..] + tail)
    ensures Collapse(a) == [a[0]] + Collapse(a[1..])
  {
    var x := a + tail;
    assert x[0] == a[0];
    assert x[1..] == a[1..] + tail;
  }

  /** A whitespace run at the start becomes one space. */
  lemma CollapseRunFirst(w: string, b: string)
    requires w != [] && forall i :: 0 <= i < |w| ==> IsSpace(w[i])
    requires b == [] || !IsSpace(b[0])
    ensures Collapse(w + b) == [' '] + Collapse(b)
  {
    var x := w + b;
    assert x[0] == w[0];
    assert x[1..] == w[1..] + b;
    StripLeadingRun(w[1..], b);
    assert Collapse(x) == [' '] + Collapse(StripLeading(x[1..]));
  }

  /**
   * On a stretch `a` that starts with whitespace and ends without it, the
   * collapse of `a + tail` is one space and the collapse of the rest of `a`
   * after its leading run, with `tail` kept; that rest still ends in `a`'s
   * last character.
   */
  lemma CollapseLeadingRun(a: string, tail: string)
    requires a != [] && IsSpace(a[0]) && !IsSpace(a[|a| - 1])
    ensures var a' := StripLeading(a[1..]);
            && |a'| < |a| && a' != [] && a'[|a'| - 1] == a[|a| - 1]
            && Collapse(a + tail) == [' '] + Collapse(a' + tail)
            && Collapse(a) == [' '] + Collapse(a')
  {
    var t := a[1..];
    var x := a + tail;
    assert x[0] == a[0];
    assert x[1..] == t + tail;
    StripLeadingStopsEarly(t, tail);
    StripLeadingIsSuffix(t);
  }

  /** Every whitespace character replaced by an ordinary space. */
  function Blank(s: string): (r: string)
    ensures |r| == |s|
    ensures forall i :: 0 <= i < |s| ==> r[i] == if IsSpace(s[i]) then ' ' else s[i]
  {
    if s == [] then [] else [if IsSpace(s[0]) then ' ' else s[0]] + Blank(s[1..])
  }

  /** Every space that directly follows a space dropped. */
  function Squeeze(s: string): string {
    if |s| <= 1 then s
    else if s[0] == ' ' && s[1] == ' ' then Squeeze(s[1..])
    else [s[0]] + Squeeze(s[1..])
  }

  /** A space before a blanked stretch squeezes away the spaces the stretch's leading run became. */
  lemma {:induction false} SqueezeBlankedRun(t: string)
    ensures Squeeze([' '] + Blank(t)) == [' '] + Squeeze(Blank(StripLeading(t)))
  {
    if t != [] {
      assert ([' '] + Blank(t))[1..] == Blank(t);
      if IsSpace(t[0]) {
        assert Blank(t) == [' '] + Blank(t[1..]);
        SqueezeBlankedRun(t[1..]);
      } else {
        assert Blank(t)[0] == t[0];
      }
    }
  }

  /**
   * An independent description of `re.sub(r'\s+', ' ', s)`: blank every
   * whitespace character, then drop each space that follows a space. The
   * collapse is exactly that.
   */
  lemma {:induction false} CollapseIsSqueezedBlank(s: string)
    ensures Collapse(s) == Squeeze(Blank(s))
    decreases |s|
  {
    if s != [] {
      var u := Blank(s[1..]);
      if IsSpace(s[0]) {
        assert Blank(s) == [' '] + u;
        SqueezeBlankedRun(s[1..]);
        CollapseIsSqueezedBlank(StripLeading(s[1..]));
      } else {
        assert Blank(s) == [s[0]] + u;
        assert ([s[0]] + u)[1..] == u;
        CollapseIsSqueezedBlank(s[1..]);
      }
    }
  }

  /**
   * Two words of visible characters separated by any whitespace run, with
   * any whitespace around them, normalize to the two words joined by one
   * space.
   */
  lemma NormalizeJoinsWords(p: string, a: string, w: string, b: string, q: string)
    requires forall i :: 0 <= i < |p| ==> IsSpace(p[i])
    requires a != [] && forall i :: 0 <= i < |a| ==> IsVisible(a[i])
    requires w != [] && forall i :: 0 <= i < |w| ==> IsSpace(w[i])
    requires b != [] && forall i :: 0 <= i < |b| ==> IsVisible(b[i])
    requires forall i :: 0 <= i < |q| ==> IsSpace(q[i])
    ensures NormalizeString(Some(p + a + w + b + q)) == a + " " + b
  {
    var m := a + w + b;
    StripAroundWords(p, m, q);
    assert p + a + w + b + q == p + m + q;
    CollapseAcrossRun(a, w, b);
    CollapseWithoutSpace(a);
    CollapseWithoutSpace(b);
    JoinedWordsArePrintable(a, b);
    DropControlsOfPrintable(a + " " + b);
  }

  /** strip() removes the whitespace padding around a stretch that starts and ends without whitespace. */
  lemma StripAroundWords(p: string, m: string, q: string)
    requires forall i :: 0 <= i < |p| ==> IsSpace(p[i])
    requires m != [] && !IsSpace(m[0]) && !IsSpace(m[|m| - 1])
    requires forall i :: 0 <= i < |q| ==> IsSpace(q[i])
    ensures Strip(p + m + q) == m
  {
    assert p + m + q == p + (m + q);
    assert (m + q)[0] == m[0];
    StripLeadingRun(p, m + q);
    StripTrailingRun(m, q);
  }

  /** Two words of visible characters joined by a space contain no control character. */
  lemma JoinedWordsArePrintable(a: string, b: string)
    requires forall i :: 0 <= i < |a| ==> IsVisible(a[i])
    requires forall i :: 0 <= i < |b| ==> IsVisible(b[i])
    ensures forall i :: 0 <= i < |a + " " + b| ==> (a + " " + b)[i] as int >= 32
  {
    var r := a + " " + b;
    forall i | 0 <= i < |r|
      ensures r[i] as int >= 32
    {
      if i < |a| {
        assert r[i] == a[i];
      } else if i > |a| {
        assert r[i] == b[i - |a| - 1];
      }
    }
  }
}
