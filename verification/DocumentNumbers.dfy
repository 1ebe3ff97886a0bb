/** Document numbers: how their segments are cleaned up, and why two documents never share one. */
module DocumentNumbers {
  import opened Rows

  /** The numbering columns of an invoice profile. */
  datatype Numbering = Numbering(prefix: Option<string>, series: Option<string>, width: Option<nat>)

  // ---------------------------------------------------------------- normalising a segment

  predicate IsCode(c: char) { 'A' <= c <= 'Z' || '0' <= c <= '9' }

  predicate IsSpace(c: char) { c == ' ' || '\t' <= c <= '\r' || (28 as char) <= c <= (31 as char) }

  predicate IsDash(c: char) { c == '-' }

  function Upper(s: string): (r: string)
    ensures |r| == |s|
  {
    if s == "" then ""
    else [if 'a' <= s[0] <= 'z' then (s[0] as int - 32) as char else s[0]] + Upper(s[1..])
  }

  function StripLeft(s: string, p: char -> bool): string {
    if s != "" && p(s[0]) then StripLeft(s[1..], p) else s
  }

  function StripRight(s: string, p: char -> bool): string {
    if s != "" && p(s[|s| - 1]) then StripRight(s[..|s| - 1], p) else s
  }

  function Strip(s: string, p: char -> bool): string { StripRight(StripLeft(s, p), p) }

  /** Every run of other characters becomes one dash. */
  function Collapse(s: string): string {
    if s == "" then ""
    else if IsCode(s[0]) then [s[0]] + Collapse(s[1..])
    else if |s| > 1 && !IsCode(s[1]) then Collapse(s[1..])
    else "-" + Collapse(s[1..])
  }

  function Cleaned(s: string): string {
    Strip(Collapse(Upper(Strip(s, IsSpace))), IsDash)
  }

  function Normalize(value: Option<string>, fallback: string): string {
    var raw := if value.None? || value.value == "" then fallback else value.value;
    if Cleaned(raw) == "" then fallback else Cleaned(raw)
  }

  // ---------------------------------------------------------------- what normalising guarantees

  /** Code characters and dashes, no two dashes in a row. */
  predicate Dashed(s: string) {
    && (forall i :: 0 <= i < |s| ==> IsCode(s[i]) || s[i] == '-')
    && (forall i :: 0 <= i < |s| - 1 ==> s[i] != '-' || s[i + 1] != '-')
  }

  /** Dashes only inside. */
  predicate IsSegment(s: string) {
    Dashed(s) && (s != "" ==> s[0] != '-' && s[|s| - 1] != '-')
  }

  lemma {:induction false} CollapseDashes(s: string)
    ensures Dashed(Collapse(s))
    ensures s != "" ==> Collapse(s) != "" && (Collapse(s)[0] == '-' <==> !IsCode(s[0]))
  {
    if s != "" {
      CollapseDashes(s[1..]);
    }
  }

  lemma {:induction false} StripLeftKeepsDashed(s: string)
    requires Dashed(s)
    ensures Dashed(StripLeft(s, IsDash))
    ensures StripLeft(s, IsDash) != "" ==> StripLeft(s, IsDash)[0] != '-'
  {
    if s != "" && IsDash(s[0]) {
      StripLeftKeepsDashed(s[1..]);
    }
  }

  lemma {:induction false} StripRightKeepsDashed(s: string)
    requires Dashed(s) && (s != "" ==> s[0] != '-')
    ensures IsSegment(StripRight(s, IsDash))
  {
    if s != "" && IsDash(s[|s| - 1]) {
      StripRightKeepsDashed(s[..|s| - 1]);
    }
  }

  lemma {:induction false} CleanedIsSegment(s: string)
    ensures IsSegment(Cleaned(s))
  {
    var c := Collapse(Upper(Strip(s, IsSpace)));
    CollapseDashes(Upper(Strip(s, IsSpace)));
    StripLeftKeepsDashed(c);
    StripRightKeepsDashed(StripLeft(c, IsDash));
  }

  lemma {:induction false} UpperKeepsDashed(s: string)
    requires Dashed(s)
    ensures Upper(s) == s
  {
    if s != "" {
      UpperKeepsDashed(s[1..]);
    }
  }

  lemma {:induction false} CollapseKeepsSegment(s: string)
    requires Dashed(s)
    ensures Collapse(s) == s
  {
    if s != "" {
      assert |s| > 1 && s[0] == '-' ==> s[1] != '-';
      CollapseKeepsSegment(s[1..]);
    }
  }

  /** A clean segment is left alone. */
  lemma CleanedKeepsSegment(s: string)
    requires IsSegment(s)
    ensures Cleaned(s) == s
  {
    assert Strip(s, IsSpace) == s;
    UpperKeepsDashed(s);
    CollapseKeepsSegment(s);
    assert Strip(s, IsDash) == s;
  }

  /** Normalising yields capitals, digits and single inner dashes only, and a second time changes
      nothing. */
  lemma NormalizeIdempotent(value: Option<string>, fallback: string)
    requires IsSegment(fallback)
    ensures IsSegment(Normalize(value, fallback))
    ensures Normalize(Some(Normalize(value, fallback)), fallback) == Normalize(value, fallback)
  {
    CleanedIsSegment(if value.None? || value.value == "" then fallback else value.value);
    CleanedKeepsSegment(Normalize(value, fallback));
    CleanedKeepsSegment(fallback);
  }

  // ---------------------------------------------------------------- what normalising means

  /** The runs of code characters, in order. */
  function Words(s: string): (ws: seq<string>)
    ensures s != "" && IsCode(s[0]) ==> ws != []
    ensures forall i :: 0 <= i < |ws| ==> ws[i] != "" && forall k :: 0 <= k < |ws[i]| ==> IsCode(ws[i][k])
  {
    if s == "" then []
    else if !IsCode(s[0]) then Words(s[1..])
    else
      var ws := Words(s[1..]);
      if |s| > 1 && IsCode(s[1]) then [[s[0]] + ws[0]] + ws[1..] else [[s[0]]] + ws
  }

  function Join(ws: seq<string>): string {
    if ws == [] then "" else if |ws| == 1 then ws[0] else ws[0] + "-" + Join(ws[1..])
  }

  function Lead(s: string): string { if s != "" && !IsCode(s[0]) then "-" else "" }

  function Trail(s: string): string {
    if s != "" && !IsCode(s[|s| - 1]) && Words(s) != [] then "-" else ""
  }

  ghost predicate Joined(s: string) {
    Collapse(s) == Lead(s) + Join(Words(s)) + Trail(s)
  }

  lemma JoinedInWord(s: string)
    requires |s| > 1 && IsCode(s[0]) && IsCode(s[1]) && Joined(s[1..])
    ensures Joined(s)
  {
    var t, ws := s[1..], Words(s[1..]);
    assert s[|s| - 1] == t[|t| - 1];
    assert Words(s)[1..] == ws[1..];
    assert Join(Words(s)) == [s[0]] + Join(ws);
  }

  lemma JoinedAfterWord(s: string)
    requires |s| > 1 && IsCode(s[0]) && !IsCode(s[1]) && Joined(s[1..])
    ensures Joined(s)
  {
    var t, ws := s[1..], Words(s[1..]);
    assert s[|s| - 1] == t[|t| - 1];
    if ws == [] {
      AllJunk(t);
      assert Trail(s) == "-" && Collapse(t) == "-";
    } else {
      assert Words(s)[1..] == ws;
      assert Join(Words(s)) == [s[0]] + "-" + Join(ws);
    }
  }

  lemma JoinedAfterJunk(s: string)
    requires |s| > 1 && !IsCode(s[0]) && Joined(s[1..])
    ensures Joined(s)
  {
    var t := s[1..];
    assert s[|s| - 1] == t[|t| - 1];
    assert Words(s) == Words(t);
  }

  lemma {:induction false} CollapseJoins(s: string)
    ensures Joined(s)
  {
    if |s| <= 1 {
    } else {
      CollapseJoins(s[1..]);
      if !IsCode(s[0]) {
        JoinedAfterJunk(s);
      } else if IsCode(s[1]) {
        JoinedInWord(s);
      } else {
        JoinedAfterWord(s);
      }
    }
  }

  lemma {:induction false} AllJunk(s: string)
    requires Words(s) == []
    ensures forall i :: 0 <= i < |s| ==> !IsCode(s[i])
  {
    if s != "" {
      AllJunk(s[1..]);
    }
  }

  lemma {:induction false} JoinEnds(ws: seq<string>)
    requires forall i :: 0 <= i < |ws| ==> ws[i] != "" && forall k :: 0 <= k < |ws[i]| ==> IsCode(ws[i][k])
    ensures ws != [] ==> Join(ws) != "" && IsCode(Join(ws)[0]) && IsCode(Join(ws)[|Join(ws)| - 1])
  {
    if |ws| > 1 {
      JoinEnds(ws[1..]);
    }
  }

  lemma StripDashes(lead: string, body: string, trail: string)
    requires lead in ["", "-"] && trail in ["", "-"]
    requires body != "" ==> body[0] != '-' && body[|body| - 1] != '-'
    requires body == "" ==> trail == ""
    ensures Strip(lead + body + trail, IsDash) == body
  {
    var s := lead + body + trail;
    if lead == "-" {
      assert s[1..] == body + trail;
    } else {
      assert s == body + trail;
    }
    assert StripLeft(s, IsDash) == body + trail;
    if trail == "-" {
      assert (body + trail)[..|body + trail| - 1] == body;
      assert StripRight(body, IsDash) == body;
    } else {
      assert body + trail == body;
    }
  }

  /** Only small letters change, each to its capital. */
  lemma {:induction false} UpperAt(s: string, i: nat)
    requires i < |s|
    ensures if 'a' <= s[i] <= 'z' then Upper(s)[i] as int - 'A' as int == s[i] as int - 'a' as int
            else Upper(s)[i] == s[i]
  {
    if i > 0 {
      UpperAt(s[1..], i - 1);
    }
  }

  /** Normalised text is the runs of letters and digits of the capitalised text, joined by dashes. */
  lemma CleanedJoinsWords(s: string)
    ensures Cleaned(s) == Join(Words(Upper(Strip(s, IsSpace))))
  {
    var u := Upper(Strip(s, IsSpace));
    CollapseJoins(u);
    JoinEnds(Words(u));
    StripDashes(Lead(u), Join(Words(u)), Trail(u));
  }

  // ---------------------------------------------------------------- numbers

  function Digit(d: nat): char
    requires d < 10
  {
    ('0' as int + d) as char
  }

  function Digits(n: nat): string {
    if n < 10 then [Digit(n)] else Digits(n / 10) + [Digit(n % 10)]
  }

  function Zeros(k: nat): string {
    if k == 0 then "" else "0" + Zeros(k - 1)
  }

  function ZeroFill(s: string, width: nat): string {
    if |s| >= width then s else Zeros(width - |s|) + s
  }

  function Value(s: string): int {
    if s == "" then 0 else Value(s[..|s| - 1]) * 10 + (s[|s| - 1] as int - '0' as int)
  }

  predicate AllDigits(s: string) { forall i :: 0 <= i < |s| ==> '0' <= s[i] <= '9' }

  lemma {:induction false} DigitsValue(n: nat)
    ensures Value(Digits(n)) == n && AllDigits(Digits(n)) && Digits(n) != ""
  {
    if n < 10 {
      assert Digits(n)[..0] == "";
    } else {
      DigitsValue(n / 10);
      assert Digits(n)[..|Digits(n)| - 1] == Digits(n / 10);
    }
  }

  lemma {:induction false} ZerosValue(k: nat)
    ensures Value(Zeros(k)) == 0 && AllDigits(Zeros(k))
  {
    if k > 0 {
      ZerosValue(k - 1);
      PaddedValue("0", Zeros(k - 1));
      assert "0"[..0] == "";
    }
  }

  lemma {:induction false} PaddedValue(zeros: string, s: string)
    requires Value(zeros) == 0
    ensures Value(zeros + s) == Value(s)
  {
    if s == "" {
      assert zeros + s == zeros;
    } else {
      assert (zeros + s)[..|zeros + s| - 1] == zeros + s[..|s| - 1];
      PaddedValue(zeros, s[..|s| - 1]);
    }
  }

  /** Whatever the width, the padded number still reads as the id. */
  lemma PaddedId(id: nat, width: nat)
    ensures var d := ZeroFill(Digits(id), width); Value(d) == id && AllDigits(d) && d != ""
  {
    DigitsValue(id);
    if |Digits(id)| < width {
      ZerosValue(width - |Digits(id)|);
      PaddedValue(Zeros(width - |Digits(id)|), Digits(id));
    }
  }

  // ---------------------------------------------------------------- document numbers

  function Width(p: Option<Numbering>): nat {
    if p.Some? && p.value.width.Some? && p.value.width.value != 0 then p.value.width.value else 6
  }

  function NumberedSuffix(p: Option<Numbering>, code: string, id: nat): string {
    Normalize(Some(code), "DOC") + "-" + ZeroFill(Digits(id), Width(p))
  }

  /** Prefix, and series if there is one. */
  function Heading(p: Option<Numbering>): string {
    var prefix := Normalize(if p.Some? then p.value.prefix else None, "DOC");
    var series :=
      if p.Some? && p.value.series.Some? && p.value.series.value != "" then Normalize(p.value.series, "") else "";
    if series != "" then prefix + "-" + series else prefix
  }

  function DocumentNumber(p: Option<Numbering>, suffix: string): string {
    Heading(p) + "-" + Normalize(Some(suffix), "DOC")
  }

  /** A numbered suffix is already a clean segment, so its padding and its dash survive. */
  lemma SuffixIsSegment(p: Option<Numbering>, code: string, id: nat)
    ensures IsSegment(NumberedSuffix(p, code, id)) && NumberedSuffix(p, code, id) != ""
    ensures Normalize(Some(NumberedSuffix(p, code, id)), "DOC") == NumberedSuffix(p, code, id)
  {
    var c, d := Normalize(Some(code), "DOC"), ZeroFill(Digits(id), Width(p));
    NormalizeIdempotent(Some(code), "DOC");
    CodeNotEmpty(code);
    PaddedId(id, Width(p));
    DashedPair(c, d);
    CleanedKeepsSegment(c + "-" + d);
  }

  lemma DashedPair(c: string, d: string)
    requires IsSegment(c) && c != "" && AllDigits(d) && d != ""
    ensures IsSegment(c + "-" + d)
  {
    var s := c + "-" + d;
    forall i | 0 <= i < |s| ensures IsCode(s[i]) || s[i] == '-' {
      assert i > |c| ==> s[i] == d[i - |c| - 1];
    }
    forall i | 0 <= i < |s| - 1 ensures s[i] != '-' || s[i + 1] != '-' {
      assert i >= |c| ==> s[i + 1] == d[i - |c|];
    }
  }

  lemma CodeNotEmpty(code: string)
    ensures Normalize(Some(code), "DOC") != ""
  {
  }

  /** The last dash separates the code from the digits. */
  lemma SplitAtLastDash(c1: string, d1: string, c2: string, d2: string)
    requires AllDigits(d1) && AllDigits(d2) && c1 + "-" + d1 == c2 + "-" + d2
    ensures c1 == c2 && d1 == d2
  {
    var s := c1 + "-" + d1;
    assert s[|c1|] == '-' && s[|c2|] == '-';
    assert forall k :: |c1| < k < |s| ==> s[k] == d1[k - |c1| - 1] && s[k] != '-';
    assert forall k :: |c2| < k < |s| ==> s[k] == d2[k - |c2| - 1] && s[k] != '-';
    assert |c1| == |c2|;
    assert s[..|c1|] == c1 && s[..|c2|] == c2;
    assert s[|c1| + 1..] == d1 && s[|c2| + 1..] == d2;
  }

  /** For one prefix and series, and even if the width was changed in between, two document numbers
      are equal exactly when the codes normalise to the same segment and the ids are the same. */
  lemma DocumentNumbersInjective(
    p: Option<Numbering>, q: Option<Numbering>, code1: string, id1: nat, code2: string, id2: nat)
    requires Heading(p) == Heading(q)
    ensures DocumentNumber(p, NumberedSuffix(p, code1, id1)) == DocumentNumber(q, NumberedSuffix(q, code2, id2))
         ==> Normalize(Some(code1), "DOC") == Normalize(Some(code2), "DOC") && id1 == id2
    ensures Width(p) == Width(q) && Normalize(Some(code1), "DOC") == Normalize(Some(code2), "DOC") && id1 == id2
         ==> DocumentNumber(p, NumberedSuffix(p, code1, id1)) == DocumentNumber(q, NumberedSuffix(q, code2, id2))
  {
    SuffixIsSegment(p, code1, id1);
    SuffixIsSegment(q, code2, id2);
    var s1, s2 := NumberedSuffix(p, code1, id1), NumberedSuffix(q, code2, id2);
    if DocumentNumber(p, s1) == DocumentNumber(q, s2) {
      var h := Heading(p) + "-";
      assert (h + s1)[|h|..] == s1 && (h + s2)[|h|..] == s2;
      PaddedId(id1, Width(p));
      PaddedId(id2, Width(q));
      SplitAtLastDash(Normalize(Some(code1), "DOC"), ZeroFill(Digits(id1), Width(p)),
                      Normalize(Some(code2), "DOC"), ZeroFill(Digits(id2), Width(q)));
    }
  }

  /** The codes in use are told apart. */
  lemma CodesInUseDiffer(i: nat, j: nat)
    requires i < j < 5
    ensures var codes := ["CP", "SP", "CL", "SL", "FS"];
      Normalize(Some(codes[i]), "DOC") != Normalize(Some(codes[j]), "DOC")
  {
    var codes := ["CP", "SP", "CL", "SL", "FS"];
    CleanedKeepsSegment(codes[i]);
    CleanedKeepsSegment(codes[j]);
  }

  // ---------------------------------------------------------------- what a number is made of

  lemma {:induction false} WordsWithoutLast(s: string)
    requires s != "" && !IsCode(s[|s| - 1])
    ensures Words(s[..|s| - 1]) == Words(s)
  {
    if |s| > 1 {
      WordsWithoutLast(s[1..]);
      assert s[1..][..|s| - 2] == s[..|s| - 1][1..];
      if |s| == 2 && IsCode(s[0]) {
        assert Words(s[1..]) == [] && s[..1][1..] == "";
      }
    }
  }

  lemma {:induction false} UpperCut(s: string, n: nat)
    requires n <= |s|
    ensures Upper(s[..n]) == Upper(s)[..n] && Upper(s[n..]) == Upper(s)[n..]
  {
    if n > 0 {
      UpperCut(s[1..], n - 1);
      assert s[..n][1..] == s[1..][..n - 1] && s[n..] == s[1..][n - 1..];
    } else {
      assert s[..0] == "" && s[0..] == s;
    }
  }

  /** Spaces around a text do not change its words. */
  lemma {:induction false} WordsStripLeft(s: string)
    ensures Words(Upper(StripLeft(s, IsSpace))) == Words(Upper(s))
  {
    if s != "" && IsSpace(s[0]) {
      WordsStripLeft(s[1..]);
      UpperCut(s, 1);
      UpperAt(s, 0);
    }
  }

  lemma {:induction false} WordsStripRight(s: string)
    ensures Words(Upper(StripRight(s, IsSpace))) == Words(Upper(s))
  {
    if s != "" && IsSpace(s[|s| - 1]) {
      WordsStripRight(s[..|s| - 1]);
      UpperCut(s, |s| - 1);
      UpperAt(s, |s| - 1);
      WordsWithoutLast(Upper(s));
    }
  }

  /** The words of a text in capitals, or the fallback where it has none. */
  function Part(value: Option<string>, fallback: seq<string>): seq<string> {
    var words := if value.Some? then Words(Upper(value.value)) else [];
    if words == [] then fallback else words
  }

  lemma CleanedJoinsAll(raw: string)
    ensures Cleaned(raw) == Join(Words(Upper(raw)))
    ensures Cleaned(raw) == "" <==> Words(Upper(raw)) == []
  {
    CleanedJoinsWords(raw);
    WordsStripRight(StripLeft(raw, IsSpace));
    WordsStripLeft(raw);
    JoinEnds(Words(Upper(raw)));
  }

  lemma NormalizeJoins(value: Option<string>, fallback: seq<string>)
    requires fallback == ["DOC"] || fallback == []
    ensures Normalize(value, Join(fallback)) == Join(Part(value, fallback))
  {
    if value.None? || value.value == "" {
      CleanedKeepsSegment(Join(fallback));
    } else {
      CleanedJoinsAll(value.value);
    }
  }

  lemma {:induction false} JoinTwo(a: seq<string>, b: seq<string>)
    requires a != [] && b != []
    ensures Join(a + b) == Join(a) + "-" + Join(b)
  {
    if |a| == 1 {
      assert (a + b)[1..] == b;
    } else {
      JoinTwo(a[1..], b);
      assert (a + b)[1..] == a[1..] + b;
    }
  }

  function Prefix(p: Option<Numbering>): Option<string> { if p.Some? then p.value.prefix else None }

  function Series(p: Option<Numbering>): Option<string> { if p.Some? then p.value.series else None }

  lemma HeadingJoins(p: Option<Numbering>)
    ensures Heading(p) == Join(Part(Prefix(p), ["DOC"]) + Part(Series(p), []))
  {
    var prefix, series := Part(Prefix(p), ["DOC"]), Part(Series(p), []);
    NormalizeJoins(Prefix(p), ["DOC"]);
    NormalizeJoins(Series(p), []);
    if series == [] {
      assert prefix + series == prefix;
    } else {
      assert series == Words(Upper(Series(p).value));
      JoinEnds(series);
      JoinTwo(prefix, series);
    }
  }

  lemma {:induction false} ZeroFillLength(s: string, width: nat)
    ensures |ZeroFill(s, width)| == if |s| >= width then |s| else width
  {
    ZerosLength(if |s| >= width then 0 else width - |s|);
  }

  lemma {:induction false} ZerosLength(k: nat)
    ensures |Zeros(k)| == k
  {
    if k > 0 {
      ZerosLength(k - 1);
    }
  }

  /** The width a profile asks for: six digits unless it says otherwise. */
  predicate AsWide(p: Option<Numbering>, digits: string, bare: string) {
    var width := if p.Some? && p.value.width.Some? && p.value.width.value > 0 then p.value.width.value else 6;
    |digits| == if |bare| >= width then |bare| else width
  }

  /** A document number is, joined by single dashes: the words of the prefix - or DOC where it has none -,
      those of the series, those of the document code, and the id in digits, filled with zeros to the
      profile's width. */
  lemma NumberIsJoined(p: Option<Numbering>, code: string, id: nat) returns (digits: string)
    ensures Value(digits) == id && AllDigits(digits) && AsWide(p, digits, Digits(id))
    ensures DocumentNumber(p, NumberedSuffix(p, code, id))
         == Join(Part(Prefix(p), ["DOC"]) + Part(Series(p), []) + Part(Some(code), ["DOC"]) + [digits])
  {
    digits := ZeroFill(Digits(id), Width(p));
    PaddedId(id, Width(p));
    ZeroFillLength(Digits(id), Width(p));
    SuffixIsSegment(p, code, id);
    HeadingJoins(p);
    NormalizeJoins(Some(code), ["DOC"]);
    JoinThree(Part(Prefix(p), ["DOC"]) + Part(Series(p), []), Part(Some(code), ["DOC"]), digits);
  }

  lemma JoinThree(heading: seq<string>, words: seq<string>, last: string)
    requires heading != [] && words != []
    ensures Join(heading + words + [last]) == Join(heading) + "-" + (Join(words) + "-" + last)
  {
    JoinTwo(words, [last]);
    JoinTwo(heading, words + [last]);
    assert heading + words + [last] == heading + (words + [last]);
  }
}
