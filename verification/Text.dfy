/** The string operations the services lean on: trimming, case folding, word splitting, decimals. */
module Text {

  // ----- strings.TrimSpace, strings.ToLower, strings.EqualFold -----

  /** unicode.IsSpace. */
  predicate IsSpace(c: char) {
    '\t' <= c <= '\r' || c == ' ' || c == '\U{0085}' || c == '\U{00A0}' || c == '\U{1680}' ||
    '\U{2000}' <= c <= '\U{200A}' || c == '\U{2028}' || c == '\U{2029}' || c == '\U{202F}' ||
    c == '\U{205F}' || c == '\U{3000}'
  }

  function TrimLeft(s: string): (r: string)
    ensures |r| <= |s|
  {
    if s != "" && IsSpace(s[0]) then TrimLeft(s[1..]) else s
  }

  function TrimRight(s: string): (r: string)
    ensures |r| <= |s|
  {
    if s != "" && IsSpace(s[|s| - 1]) then TrimRight(s[..|s| - 1]) else s
  }

  function Trim(s: string): string {
    TrimRight(TrimLeft(s))
  }

  /** No white space at either end. */
  predicate Trimmed(s: string) {
    s == "" || (!IsSpace(s[0]) && !IsSpace(s[|s| - 1]))
  }

  /** Trimming removes something exactly from the strings that have white space at an end. */
  lemma TrimLength(s: string)
    ensures Trimmed(s) ==> Trim(s) == s
    ensures !Trimmed(s) ==> |Trim(s)| < |s|
  {
  }

  /** What Trim leaves: the stretch between the outer white space, which is all it drops. */
  ghost predicate TrimmedFrom(s: string, i: nat, j: nat) {
    && i <= j <= |s| && Trimmed(s[i..j])
    && (forall k :: 0 <= k < i ==> IsSpace(s[k])) && (forall k :: j <= k < |s| ==> IsSpace(s[k]))
  }

  lemma {:induction false} TrimLeftFrom(s: string) returns (i: nat)
    ensures i <= |s| && TrimLeft(s) == s[i..]
    ensures (forall k :: 0 <= k < i ==> IsSpace(s[k])) && (i < |s| ==> !IsSpace(s[i]))
  {
    hide IsSpace;
    i := 0;
    if s != "" && IsSpace(s[0]) {
      var k := TrimLeftFrom(s[1..]);
      i := k + 1;
    }
  }

  lemma {:induction false} TrimRightTo(s: string) returns (j: nat)
    ensures j <= |s| && TrimRight(s) == s[..j]
    ensures (forall k :: j <= k < |s| ==> IsSpace(s[k])) && (j > 0 ==> !IsSpace(s[j - 1]))
  {
    hide IsSpace;
    j := |s|;
    if s != "" && IsSpace(s[|s| - 1]) {
      j := TrimRightTo(s[..|s| - 1]);
      assert s[..|s| - 1][..j] == s[..j];
    }
  }

  /** Trimming drops the white space at both ends and nothing else. */
  lemma TrimExactly(s: string) returns (i: nat, j: nat)
    ensures TrimmedFrom(s, i, j) && Trim(s) == s[i..j]
  {
    hide IsSpace;
    i := TrimLeftFrom(s);
    var left := TrimLeft(s);
    var n := TrimRightTo(left);
    j := i + n;
    assert left[..n] == s[i..j];
    forall k | j <= k < |s| ensures IsSpace(s[k]) {
      assert left[k - i] == s[k];
    }
    if n > 0 {
      assert s[i..j][0] == s[i] && s[i..j][n - 1] == left[n - 1];
    }
  }

  /** There is one such stretch, so Trim is the only function with this property. */
  lemma TrimOf(s: string, i: nat, j: nat)
    requires TrimmedFrom(s, i, j)
    ensures Trim(s) == s[i..j]
  {
    var a, b := TrimExactly(s);
    hide IsSpace, Trim;
    if i < j {
      assert s[i..j][0] == s[i] && s[i..j][j - i - 1] == s[j - 1];
      assert !IsSpace(s[i]) && !IsSpace(s[j - 1]);
      assert a < b;
    }
    if a < b {
      assert s[a..b][0] == s[a] && s[a..b][b - a - 1] == s[b - 1];
      assert !IsSpace(s[a]) && !IsSpace(s[b - 1]);
    }
  }

  /** Blanks, tabs and line ends are white space; no printing ASCII character is. */
  lemma SpaceExamples()
    ensures IsSpace(' ') && IsSpace('\t') && IsSpace('\n') && IsSpace('\r')
    ensures forall c: char :: '!' <= c <= '~' ==> !IsSpace(c)
  {
  }

  function LowerChar(c: char): char {
    if 'A' <= c <= 'Z' then c - 'A' + 'a' else c
  }

  /** Case folding on the ASCII letters. */
  function Lower(s: string): (r: string)
    ensures |r| == |s|
  {
    seq(|s|, i requires 0 <= i < |s| => LowerChar(s[i]))
  }

  predicate EqualFold(a: string, b: string) {
    Lower(a) == Lower(b)
  }

  /** The same letter, or one the capital of the other. */
  predicate SameLetter(c: char, d: char) {
    c == d || ('A' <= c <= 'Z' && d as int == c as int + 32) || ('A' <= d <= 'Z' && c as int == d as int + 32)
  }

  lemma LowerCharExactly(c: char, d: char)
    ensures LowerChar(c) == LowerChar(d) <==> SameLetter(c, d)
  {
  }

  ghost predicate SameLetters(a: string, b: string) {
    |a| == |b| && forall i :: 0 <= i < |a| ==> SameLetter(a[i], b[i])
  }

  /** Two strings match exactly when they have the same letters up to case, place by place. */
  lemma FoldExactly(a: string, b: string)
    ensures EqualFold(a, b) <==> SameLetters(a, b)
  {
    hide LowerChar, SameLetter;
    forall i | 0 <= i < |a| && i < |b| ensures LowerChar(a[i]) == LowerChar(b[i]) <==> SameLetter(a[i], b[i]) {
      LowerCharExactly(a[i], b[i]);
    }
    if EqualFold(a, b) {
      forall i | 0 <= i < |a| ensures SameLetter(a[i], b[i]) {
        assert Lower(a)[i] == LowerChar(a[i]) && Lower(b)[i] == LowerChar(b[i]);
      }
    }
    if |a| == |b| && forall i :: 0 <= i < |a| ==> SameLetter(a[i], b[i]) {
      assert Lower(a) == Lower(b);
    }
  }

  /** A string matches its own trimmed form exactly when it has nothing to trim. */
  lemma TrimmedMatch(s: string)
    ensures EqualFold(Trim(s), s) <==> Trimmed(s)
  {
    TrimLength(s);
  }

  /** The text spells one of the words, up to case and outer white space. */
  ghost predicate Spells(text: string, words: set<string>) {
    exists w :: w in words && EqualFold(Trim(text), w)
  }

  /** That is: between its outer white space it has the letters of one of the words, in either case. */
  lemma SpellsExactly(text: string, words: set<string>, i: nat, j: nat)
    requires TrimmedFrom(text, i, j)
    ensures Spells(text, words) <==> exists w :: w in words && SameLetters(text[i..j], w)
  {
    TrimOf(text, i, j);
    hide TrimmedFrom, Trim, EqualFold, SameLetters;
    forall w ensures EqualFold(Trim(text), w) <==> SameLetters(text[i..j], w) {
      FoldExactly(Trim(text), w);
    }
  }

  lemma Lowercase(w: string)
    requires forall i :: 0 <= i < |w| ==> !('A' <= w[i] <= 'Z')
    ensures Lower(w) == w
  {
  }

  /** Capitals and outer white space do not matter. */
  lemma Spelled(before: string, text: string, after: string, word: string, words: set<string>)
    requires forall k :: 0 <= k < |before| ==> IsSpace(before[k])
    requires forall k :: 0 <= k < |after| ==> IsSpace(after[k])
    requires Trimmed(text) && SameLetters(text, word) && word in words
    ensures Spells(before + text + after, words)
  {
    var whole := before + text + after;
    assert whole[|before|..|before + text|] == text;
    hide IsSpace, SameLetters;
    SpellsExactly(whole, words, |before|, |before + text|);
  }

  // ----- strings.Fields, strings.Join -----

  predicate IsWord(w: string) {
    w != "" && forall i :: 0 <= i < |w| ==> !IsSpace(w[i])
  }

  predicate AllWords(ws: seq<string>) {
    forall i :: 0 <= i < |ws| ==> IsWord(ws[i])
  }

  function Flush(cur: string): seq<string> {
    if cur == "" then [] else [cur]
  }

  function FieldsFrom(cur: string, s: string): seq<string>
    decreases |s|
  {
    if s == "" then Flush(cur)
    else if IsSpace(s[0]) then Flush(cur) + FieldsFrom("", s[1..])
    else FieldsFrom(cur + [s[0]], s[1..])
  }

  /** strings.Fields: the maximal runs of non-space characters. */
  function Fields(s: string): seq<string> {
    FieldsFrom("", s)
  }

  /** strings.Join. */
  function Join(ws: seq<string>, sep: string): string {
    if |ws| == 0 then ""
    else if |ws| == 1 then ws[0]
    else ws[0] + sep + Join(ws[1..], sep)
  }

  lemma {:induction false} FieldsFromAreWords(cur: string, s: string)
    requires forall i :: 0 <= i < |cur| ==> !IsSpace(cur[i])
    ensures AllWords(FieldsFrom(cur, s))
    decreases |s|
  {
    if s != "" {
      if IsSpace(s[0]) {
        FieldsFromAreWords("", s[1..]);
      } else {
        FieldsFromAreWords(cur + [s[0]], s[1..]);
      }
    }
  }

  lemma FieldsAreWords(s: string)
    ensures AllWords(Fields(s))
  {
    FieldsFromAreWords("", s);
  }

  /** A word at the front of the rest is absorbed whole. */
  lemma {:induction false} FieldsFromWord(cur: string, w: string, rest: string)
    requires forall i :: 0 <= i < |w| ==> !IsSpace(w[i])
    ensures FieldsFrom(cur, w + rest) == FieldsFrom(cur + w, rest)
    decreases |w|
  {
    if w == "" {
      assert w + rest == rest && cur + w == cur;
    } else {
      assert (w + rest)[1..] == w[1..] + rest;
      FieldsFromWord(cur + [w[0]], w[1..], rest);
      assert cur + [w[0]] + w[1..] == cur + w;
    }
  }

  /** Splitting undoes joining with single spaces. */
  lemma {:induction false} FieldsOfJoin(ws: seq<string>)
    requires AllWords(ws)
    ensures Fields(Join(ws, " ")) == ws
  {
    if |ws| == 1 {
      FieldsFromWord("", ws[0], "");
      assert ws[0] + "" == ws[0] && "" + ws[0] == ws[0];
    } else if |ws| > 1 {
      var rest := " " + Join(ws[1..], " ");
      assert Join(ws, " ") == ws[0] + rest;
      FieldsFromWord("", ws[0], rest);
      assert "" + ws[0] == ws[0];
      assert rest[1..] == Join(ws[1..], " ");
      FieldsOfJoin(ws[1..]);
    }
  }

  /** Joining a longer list is joining its parts. */
  lemma {:induction false} JoinConcat(a: seq<string>, b: seq<string>, sep: string)
    requires a != [] && b != []
    ensures Join(a + b, sep) == Join(a, sep) + sep + Join(b, sep)
  {
    if |a| == 1 {
      assert (a + b)[1..] == b;
    } else {
      assert (a + b)[1..] == a[1..] + b;
      JoinConcat(a[1..], b, sep);
    }
  }

  lemma JoinOne(x: string, sep: string)
    ensures Join([x], sep) == x && Join([], sep) == ""
  {
  }

  // ----- which words a text has -----

  /** The words of a text by place: a word is text[from..to]. */
  datatype Span = Span(from: nat, to: nat)

  /**
   * ws are the maximal stretches of s without white space, in order, all of them: the words are slices, any
   * two are apart by at least one character, and what is outside of them, and only that, is white space.
   */
  ghost predicate Splits(s: string, ws: seq<string>, spans: seq<Span>) {
    && |ws| == |spans|
    && (forall k :: 0 <= k < |spans| ==>
          spans[k].from < spans[k].to <= |s| && ws[k] == s[spans[k].from..spans[k].to])
    && (forall j, k :: 0 <= j < k < |spans| ==> spans[j].to < spans[k].from)
    && (forall i :: 0 <= i < |s| ==> (!IsSpace(s[i]) <==> Within(spans, i)))
  }

  ghost predicate Within(spans: seq<Span>, i: nat) {
    exists k :: 0 <= k < |spans| && spans[k].from <= i < spans[k].to
  }

  function Shift(spans: seq<Span>, n: nat): (r: seq<Span>)
    ensures |r| == |spans|
  {
    seq(|spans|, k requires 0 <= k < |spans| => Span(spans[k].from + n, spans[k].to + n))
  }

  lemma SplitsSpace(c: char, rest: string, ws: seq<string>, spans: seq<Span>)
    requires IsSpace(c) && Splits(rest, ws, spans)
    ensures Splits([c] + rest, ws, Shift(spans, 1))
  {
    hide IsSpace;
    var t, more := [c] + rest, Shift(spans, 1);
    forall k | 0 <= k < |more| ensures ws[k] == t[more[k].from..more[k].to] {
      assert ws[k] == rest[spans[k].from..spans[k].to];
    }
    forall i | 0 <= i < |t| ensures !IsSpace(t[i]) <==> Within(more, i) {
      if i > 0 {
        assert t[i] == rest[i - 1];
        ShiftWithin(spans, 1, i);
      }
    }
  }

  lemma ShiftWithin(spans: seq<Span>, n: nat, i: nat)
    requires i >= n
    ensures Within(Shift(spans, n), i) <==> Within(spans, i - n)
  {
    var more := Shift(spans, n);
    if Within(more, i) {
      var k :| 0 <= k < |more| && more[k].from <= i < more[k].to;
      assert spans[k].from <= i - n < spans[k].to;
    }
    if Within(spans, i - n) {
      var k :| 0 <= k < |spans| && spans[k].from <= i - n < spans[k].to;
      assert more[k].from <= i < more[k].to;
    }
  }

  lemma StartsWithin(spans: seq<Span>, k: nat)
    requires k < |spans| && spans[k].from < spans[k].to
    ensures Within(spans, spans[k].from)
  {
    assert spans[k].from <= spans[k].from < spans[k].to;
  }

  lemma EndsOutside(s: string, ws: seq<string>, spans: seq<Span>, k: nat)
    requires Splits(s, ws, spans) && k < |spans|
    ensures !Within(spans, spans[k].to)
  {
    hide IsSpace;
    var at := spans[k].to;
    forall j | 0 <= j < |spans| ensures !(spans[j].from <= at < spans[j].to) {
      assert j < k ==> spans[j].to < spans[k].from;
    }
  }

  lemma InsideWithin(spans: seq<Span>, k: nat, at: nat)
    requires k < |spans| && spans[k].from <= at < spans[k].to
    ensures Within(spans, at)
  {
  }

  lemma WordSlices(w: string, rest: string, ws: seq<string>, spans: seq<Span>, k: nat)
    requires w != "" && Splits(rest, ws, spans) && k <= |spans|
    ensures var more := [Span(0, |w|)] + Shift(spans, |w|);
            && more[k].from < more[k].to <= |w + rest|
            && ([w] + ws)[k] == (w + rest)[more[k].from..more[k].to]
  {
    hide IsSpace, Within;
    if k > 0 {
      var x := spans[k - 1];
      assert ws[k - 1] == rest[x.from..x.to];
      assert (w + rest)[x.from + |w|..x.to + |w|] == rest[x.from..x.to];
    }
  }

  lemma WordPlaces(w: string, rest: string, ws: seq<string>, spans: seq<Span>, i: nat)
    requires IsWord(w) && Splits(rest, ws, spans) && i < |w + rest|
    ensures !IsSpace((w + rest)[i]) <==> Within([Span(0, |w|)] + Shift(spans, |w|), i)
  {
    hide IsSpace;
    var n := |w|;
    var shifted := Shift(spans, n);
    var more := [Span(0, n)] + shifted;
    if i < n {
      assert more[0].from <= i < more[0].to;
    } else {
      ShiftWithin(spans, n, i);
      WithinTail(Span(0, n), shifted, i);
    }
  }

  lemma SplitsWord(w: string, rest: string, ws: seq<string>, spans: seq<Span>)
    requires IsWord(w) && (rest != "" ==> IsSpace(rest[0])) && Splits(rest, ws, spans)
    ensures Splits(w + rest, [w] + ws, [Span(0, |w|)] + Shift(spans, |w|))
  {
    forall k | 0 <= k < |spans| ensures spans[k].from > 0 {
      StartsWithin(spans, k);
    }
    hide IsSpace, Within;
    var more := [Span(0, |w|)] + Shift(spans, |w|);
    forall k | 0 <= k < |more|
      ensures more[k].from < more[k].to <= |w + rest| && ([w] + ws)[k] == (w + rest)[more[k].from..more[k].to] {
      WordSlices(w, rest, ws, spans, k);
    }
    forall i | 0 <= i < |w + rest| ensures !IsSpace((w + rest)[i]) <==> Within(more, i) {
      WordPlaces(w, rest, ws, spans, i);
    }
  }

  lemma WithinTail(first: Span, spans: seq<Span>, i: nat)
    requires first.to <= i
    ensures Within([first] + spans, i) <==> Within(spans, i)
  {
    var more := [first] + spans;
    if Within(more, i) {
      var k :| 0 <= k < |more| && more[k].from <= i < more[k].to;
      assert spans[k - 1].from <= i < spans[k - 1].to;
    }
    if Within(spans, i) {
      var k :| 0 <= k < |spans| && spans[k].from <= i < spans[k].to;
      assert more[k + 1].from <= i < more[k + 1].to;
    }
  }

  lemma {:induction false} FieldsFromSplit(cur: string, s: string) returns (spans: seq<Span>)
    requires forall i :: 0 <= i < |cur| ==> !IsSpace(cur[i])
    ensures Splits(cur + s, FieldsFrom(cur, s), spans)
    decreases |s|
  {
    hide IsSpace, Splits;
    if s == "" {
      assert cur + s == cur;
      spans := FlushSplit(cur);
    } else if IsSpace(s[0]) {
      var rest := FieldsFromSplit("", s[1..]);
      assert "" + s[1..] == s[1..];
      hide FieldsFrom;
      spans := SpaceSplit(cur, s, FieldsFrom("", s[1..]), rest);
    } else {
      assert cur + [s[0]] + s[1..] == cur + s;
      spans := FieldsFromSplit(cur + [s[0]], s[1..]);
    }
  }

  lemma SpaceSplit(cur: string, s: string, ws: seq<string>, rest: seq<Span>) returns (spans: seq<Span>)
    requires forall i :: 0 <= i < |cur| ==> !IsSpace(cur[i])
    requires s != "" && IsSpace(s[0]) && Splits(s[1..], ws, rest)
    ensures Splits(cur + s, Flush(cur) + ws, spans)
  {
    hide IsSpace, Splits, Shift;
    SplitsSpace(s[0], s[1..], ws, rest);
    spans := Shift(rest, 1);
    assert [s[0]] + s[1..] == s;
    if cur == "" {
      assert cur + s == s && [] + ws == ws;
    } else {
      SplitsWord(cur, s, ws, spans);
      spans := [Span(0, |cur|)] + Shift(spans, |cur|);
    }
  }

  lemma FlushSplit(cur: string) returns (spans: seq<Span>)
    requires forall i :: 0 <= i < |cur| ==> !IsSpace(cur[i])
    ensures Splits(cur, Flush(cur), spans)
  {
    hide IsSpace;
    spans := if cur == "" then [] else [Span(0, |cur|)];
    assert cur != "" ==> cur[0..|cur|] == cur;
    forall i | 0 <= i < |cur| ensures Within(spans, i) {
      assert spans[0].from <= i < spans[0].to;
    }
  }

  /** ws are the words of s. */
  ghost predicate AreWordsOf(ws: seq<string>, s: string) {
    exists spans :: Splits(s, ws, spans)
  }

  /** Fields gives the words of the text: the maximal stretches without white space, in order, all of them. */
  lemma FieldsExactly(s: string)
    ensures AreWordsOf(Fields(s), s)
  {
    hide IsSpace, Splits;
    assert "" + s == s;
    var spans := FieldsFromSplit("", s);
    assert Splits(s, Fields(s), spans);
  }

  lemma {:induction false} SpansAgree(s: string, a: seq<string>, x: seq<Span>, b: seq<string>, y: seq<Span>, k: nat)
    requires Splits(s, a, x) && Splits(s, b, y) && k <= |x| && k <= |y|
    ensures x[..k] == y[..k]
  {
    hide IsSpace, Splits;
    if k > 0 {
      SpansAgree(s, a, x, b, y, k - 1);
      assert forall j :: 0 <= j < k - 1 ==> x[j] == x[..k - 1][j] == y[..k - 1][j] == y[j];
      NextFrom(s, a, x, b, y, k - 1);
      NextFrom(s, b, y, a, x, k - 1);
      NextTo(s, a, x, b, y, k - 1);
      NextTo(s, b, y, a, x, k - 1);
      assert x[..k] == x[..k - 1] + [x[k - 1]] && y[..k] == y[..k - 1] + [y[k - 1]];
    }
  }

  lemma NextFrom(s: string, a: seq<string>, x: seq<Span>, b: seq<string>, y: seq<Span>, k: nat)
    requires Splits(s, a, x) && Splits(s, b, y) && k < |x|
    requires forall j :: 0 <= j < k && j < |y| ==> x[j] == y[j]
    ensures k < |y| && y[k].from <= x[k].from
  {
    hide IsSpace;
    var at := x[k].from;
    assert Within(x, at) by { assert x[k].from <= at < x[k].to; }
    assert Within(y, at);
    var j :| 0 <= j < |y| && y[j].from <= at < y[j].to;
    assert j >= k;
  }

  lemma NextTo(s: string, a: seq<string>, x: seq<Span>, b: seq<string>, y: seq<Span>, k: nat)
    requires Splits(s, a, x) && Splits(s, b, y) && k < |x| && k < |y| && x[k].from == y[k].from
    ensures y[k].to <= x[k].to
  {
    hide IsSpace;
    EndsOutside(s, a, x, k);
    if y[k].to > x[k].to {
      InsideWithin(y, k, x[k].to);
    }
  }

  /** A text has one list of words, so Fields is the only splitting there is. */
  lemma WordsUnique(s: string, a: seq<string>, b: seq<string>)
    requires AreWordsOf(a, s) && AreWordsOf(b, s)
    ensures a == b
  {
    hide Splits;
    var x :| Splits(s, a, x);
    var y :| Splits(s, b, y);
    SplitsUnique(s, a, x, b, y);
  }

  lemma SplitsUnique(s: string, a: seq<string>, x: seq<Span>, b: seq<string>, y: seq<Span>)
    requires Splits(s, a, x) && Splits(s, b, y)
    ensures a == b
  {
    hide IsSpace;
    var n := if |x| < |y| then |x| else |y|;
    SpansAgree(s, a, x, b, y, n);
    assert forall j :: 0 <= j < n ==> x[j] == x[..n][j] == y[..n][j] == y[j];
    if n < |x| {
      NextFrom(s, a, x, b, y, n);
    }
    if n < |y| {
      NextFrom(s, b, y, a, x, n);
    }
  }

  // ----- decimal numerals -----

  function Digit(d: nat): char
    requires d < 10
  {
    '0' + d as char
  }

  /** strconv.Itoa and the %d verb on the natural numbers. */
  function Decimal(n: nat): (s: string)
    ensures s != ""
  {
    if n < 10 then [Digit(n)] else Decimal(n / 10) + [Digit(n % 10)]
  }

  /** The number a digit string stands for. */
  function Value(s: string): int {
    if s == "" then 0 else 10 * Value(s[..|s| - 1]) + (s[|s| - 1] as int - '0' as int)
  }

  lemma {:induction false} DecimalValue(n: nat)
    ensures Value(Decimal(n)) == n
  {
    if n >= 10 {
      DecimalValue(n / 10);
      assert Decimal(n)[..|Decimal(n)| - 1] == Decimal(n / 10);
    } else {
      assert Decimal(n)[..0] == "";
    }
  }

  lemma DecimalInjective(m: nat, n: nat)
    ensures Decimal(m) == Decimal(n) <==> m == n
  {
    DecimalValue(m);
    DecimalValue(n);
  }

  lemma {:induction false} DecimalIsWord(n: nat)
    ensures IsWord(Decimal(n))
  {
    if n >= 10 {
      DecimalIsWord(n / 10);
    }
  }

  /** Numerals are digits, with no leading zero but in 0 itself. */
  lemma {:induction false} DecimalShape(n: nat)
    ensures forall i :: 0 <= i < |Decimal(n)| ==> '0' <= Decimal(n)[i] <= '9'
    ensures Decimal(n)[0] == '0' <==> n == 0
  {
    if n >= 10 {
      DecimalShape(n / 10);
    }
  }

  lemma ValueSteps(s: string, c: char)
    ensures Value("") == 0 && Value(s + [c]) == 10 * Value(s) + (c as int - '0' as int)
  {
    assert (s + [c])[..|s|] == s;
  }

  const MIN_INT64 := -0x8000_0000_0000_0000
  const MAX_INT64 := 0x7fff_ffff_ffff_ffff

  /** The numeral the hand-written itoa should print. */
  function Numeral(n: int): string {
    if n < 0 then "-" + Decimal(-n) else Decimal(n)
  }

  /** A numeral is the digits of the number, after a minus sign if the number is negative. */
  lemma NumeralExactly(n: int)
    ensures n >= 0 ==> Value(Numeral(n)) == n && '0' <= Numeral(n)[0] <= '9'
    ensures n < 0 ==> Numeral(n)[0] == '-' && Value(Numeral(n)[1..]) == -n
  {
    var m := if n < 0 then -n else n;
    DecimalValue(m);
    DecimalShape(m);
    assert n < 0 ==> Numeral(n)[1..] == Decimal(m);
  }

  lemma {:induction false} DecimalLength(n: nat, bound: nat, digits: nat)
    requires digits >= 1 && n < bound && bound == Pow10(digits)
    ensures |Decimal(n)| <= digits
  {
    if n >= 10 {
      if digits == 1 {
        assert false;
      } else {
        DecimalLength(n / 10, Pow10(digits - 1), digits - 1);
      }
    }
  }

  function Pow10(k: nat): nat {
    if k == 0 then 1 else 10 * Pow10(k - 1)
  }

  /** The digits the itoa loop still has to write when its counter is m. */
  ghost function Unprinted(m: int): string {
    if m <= 0 then "" else Decimal(m)
  }

  lemma UnprintedStep(m: int, tail: string)
    requires m > 0
    ensures Unprinted(m) + tail == Unprinted(m / 10) + ([Digit(m % 10)] + tail)
    ensures |Unprinted(m / 10)| == |Unprinted(m)| - 1
  {
    assert Unprinted(m) == Unprinted(m / 10) + [Digit(m % 10)];
  }

  lemma UnprintedFits(m: int)
    requires m <= MAX_INT64
    ensures |Unprinted(m)| <= 19
  {
    assert Pow10(19) == 10_000_000_000_000_000_000 by {
      assert Pow10(5) == 100_000;
      assert Pow10(10) == 10_000_000_000;
      assert Pow10(15) == 1_000_000_000_000_000;
    }
    if m > 0 {
      DecimalLength(m, Pow10(19), 19);
    }
  }

  /** The digit loop of itoa: writes the digits of m so that they end at the end of b. */
  method PutDigits(b: array<char>, m: int) returns (i: int)
    requires b.Length == 20 && m <= MAX_INT64
    modifies b
    ensures 1 <= i <= 20 && b[i..] == Unprinted(m)
  {
    hide Decimal, Digit;
    var n := m;
    i := b.Length;
    UnprintedFits(m);
    while n > 0
      invariant 1 <= i <= 20 && |Unprinted(n)| < i
      invariant Unprinted(n) + b[i..] == Unprinted(m)
      decreases n
    {
      UnprintedStep(n, b[i..]);
      i := i - 1;
      b[i] := Digit(n % 10);
      assert b[i..] == [Digit(n % 10)] + b[i + 1..];
      n := n / 10;
    }
  }

  /**
   * itoa on a 64-bit int: a 20-byte buffer filled from the end. It prints the numeral of every
   * int except the most negative one, whose negation wraps round to itself and prints as "-".
   */
  method Itoa(n: int) returns (r: string)
    requires MIN_INT64 <= n <= MAX_INT64
    ensures r == if n == MIN_INT64 then "-" else Numeral(n)
  {
    if n == 0 {
      return "0";
    }
    var m := n;
    var neg := m < 0;
    if neg && m != MIN_INT64 { // negating the least int64 gives it back
      m := -m;
    }
    var b := new char[20];
    var i := PutDigits(b, m);
    if neg {
      i := i - 1;
      b[i] := '-';
      assert b[i..] == ['-'] + b[i + 1..];
    }
    r := b[i..];
  }
}
