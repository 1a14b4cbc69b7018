/** Escaping and value emphasis in the receipt email. */
module EmailEmphasis {
  import opened BlankText
  import opened Common
  import opened Text

  // --- Escaping ---------------------------------------------------------------

  /** `text.replace(/c/g, entity)`. */
  function ReplaceAll(text: string, c: char, entity: string): string {
    if text == "" then "" else (if text[0] == c then entity else [text[0]]) + ReplaceAll(text[1..], c, entity)
  }

  /** The four passes, ampersand first. */
  function EscapeHtml(text: string): string {
    ReplaceAll(ReplaceAll(ReplaceAll(ReplaceAll(text, '&', "&amp;"), '<', "&lt;"), '>', "&gt;"), '"', "&quot;")
  }

  function Entity(c: char): string {
    match c
    case '&' => "&amp;"
    case '<' => "&lt;"
    case '>' => "&gt;"
    case '"' => "&quot;"
    case _ => [c]
  }

  /** The single-pass character map the four passes amount to. */
  function EscapeOnce(text: string): string {
    if text == "" then "" else Entity(text[0]) + EscapeOnce(text[1..])
  }

  /** Reads entities back into characters; an unknown '&' stands for itself. */
  function Decode(html: string): string {
    if html == "" then ""
    else if "&amp;" <= html then "&" + Decode(html[5..])
    else if "&lt;" <= html then "<" + Decode(html[4..])
    else if "&gt;" <= html then ">" + Decode(html[4..])
    else if "&quot;" <= html then "\"" + Decode(html[6..])
    else [html[0]] + Decode(html[1..])
  }

  lemma Associates(a: string, b: string, c: string)
    ensures a + b + c == a + (b + c)
  {
  }

  lemma {:induction false} ReplaceAllConcat(a: string, b: string, c: char, entity: string)
    ensures ReplaceAll(a + b, c, entity) == ReplaceAll(a, c, entity) + ReplaceAll(b, c, entity)
  {
    if a == "" {
      assert a + b == b;
    } else {
      ReplaceAllConcat(a[1..], b, c, entity);
      assert (a + b)[0] == a[0] && (a + b)[1..] == a[1..] + b;
      Associates(if a[0] == c then entity else [a[0]], ReplaceAll(a[1..], c, entity), ReplaceAll(b, c, entity));
    }
  }

  lemma {:induction false} ReplaceAllAbsent(a: string, c: char, entity: string)
    requires c !in a
    ensures ReplaceAll(a, c, entity) == a
  {
    if a != "" {
      ReplaceAllAbsent(a[1..], c, entity);
    }
  }

  lemma EscapeConcat(a: string, b: string)
    ensures EscapeHtml(a + b) == EscapeHtml(a) + EscapeHtml(b)
  {
    ReplaceAllConcat(a, b, '&', "&amp;");
    var a1, b1 := ReplaceAll(a, '&', "&amp;"), ReplaceAll(b, '&', "&amp;");
    ReplaceAllConcat(a1, b1, '<', "&lt;");
    var a2, b2 := ReplaceAll(a1, '<', "&lt;"), ReplaceAll(b1, '<', "&lt;");
    ReplaceAllConcat(a2, b2, '>', "&gt;");
    ReplaceAllConcat(ReplaceAll(a2, '>', "&gt;"), ReplaceAll(b2, '>', "&gt;"), '"', "&quot;");
  }

  lemma SingleReplace(c: char, d: char, entity: string)
    ensures ReplaceAll([c], d, entity) == if c == d then entity else [c]
  {
    assert ReplaceAll([c], d, entity) == (if c == d then entity else [c]) + ReplaceAll("", d, entity);
  }

  lemma NothingLeft(entity: string)
    requires '<' !in entity && '>' !in entity && '"' !in entity
    ensures ReplaceAll(ReplaceAll(ReplaceAll(entity, '<', "&lt;"), '>', "&gt;"), '"', "&quot;") == entity
    ensures ReplaceAll(ReplaceAll(entity, '>', "&gt;"), '"', "&quot;") == entity
    ensures ReplaceAll(entity, '"', "&quot;") == entity
  {
    ReplaceAllAbsent(entity, '<', "&lt;");
    ReplaceAllAbsent(entity, '>', "&gt;");
    ReplaceAllAbsent(entity, '"', "&quot;");
  }

  /** A character is replaced in its own pass, and no later pass touches what replaced it. */
  lemma EscapeChar(c: char)
    ensures EscapeHtml([c]) == Entity(c)
  {
    SingleReplace(c, '&', "&amp;");
    SingleReplace(c, '<', "&lt;");
    SingleReplace(c, '>', "&gt;");
    SingleReplace(c, '"', "&quot;");
    var entity := Entity(c);
    if c in "&<>\"" {
      NothingLeft(entity);
    }
  }

  /** Four sequential passes equal one pass. */
  lemma {:induction false} FourPassesAreOne(text: string)
    ensures EscapeHtml(text) == EscapeOnce(text)
  {
    if text != "" {
      FourPassesAreOne(text[1..]);
      EscapeChar(text[0]);
      EscapeConcat([text[0]], text[1..]);
      assert [text[0]] + text[1..] == text;
    }
  }

  lemma DecodeEntity(c: char, rest: string)
    ensures Decode(Entity(c) + rest) == [c] + Decode(rest)
  {
    var html := Entity(c) + rest;
    assert html[|Entity(c)|..] == rest;
    assert html[0] == Entity(c)[0];
    match c
    case '&' => assert "&amp;" <= html;
    case '<' => assert html[1] == 'l'; assert "&lt;" <= html;
    case '>' => assert html[1] == 'g'; assert "&gt;" <= html;
    case '"' => assert html[1] == 'q'; assert "&quot;" <= html;
    case _ =>
  }

  /** Decoding undoes escaping. */
  lemma {:induction false} EscapeRoundTrip(text: string)
    ensures Decode(EscapeHtml(text)) == text
  {
    FourPassesAreOne(text);
    if text != "" {
      EscapeRoundTrip(text[1..]);
      FourPassesAreOne(text[1..]);
      DecodeEntity(text[0], EscapeOnce(text[1..]));
    }
  }

  /** Escaped text holds no markup character. */
  lemma {:induction false} EscapedIsInert(text: string)
    ensures forall c | c in EscapeHtml(text) :: c != '<' && c != '>' && c != '"'
  {
    FourPassesAreOne(text);
    EscapedOnceIsInert(text);
  }

  lemma {:induction false} EscapedOnceIsInert(text: string)
    ensures forall c | c in EscapeOnce(text) :: c != '<' && c != '>' && c != '"'
  {
    if text != "" {
      EscapedOnceIsInert(text[1..]);
      assert forall c | c in Entity(text[0]) :: c != '<' && c != '>' && c != '"';
    }
  }

  // --- Candidate values ---------------------------------------------------------

  datatype Variables = Variables(
    invoiceNumber: string, amountDue: string, dueDate: string,
    customerName: Option<string>, brandName: Option<string>)

  function Candidates(v: Variables): seq<Option<string>> {
    [Some(v.invoiceNumber), Some(v.amountDue), Some(v.dueDate), v.customerName, v.brandName]
  }

  function Long(values: seq<Option<string>>): seq<string> {
    if values == [] then []
    else if values[0].Some? && |Trim(values[0].value)| > 1 then [values[0].value] + Long(values[1..])
    else Long(values[1..])
  }

  ghost predicate LongestFirst(values: seq<string>) {
    values != [] ==> (forall x | x in values[1..] :: |x| <= |values[0]|) && LongestFirst(values[1..])
  }

  /** Stable insertion, longest first. */
  function Insert(value: string, sorted: seq<string>): (r: seq<string>)
    ensures forall x :: x in r <==> x == value || x in sorted
    ensures LongestFirst(sorted) ==> LongestFirst(r)
  {
    if sorted == [] then [value]
    else if |value| >= |sorted[0]| then
      assert ([value] + sorted)[1..] == sorted;
      [value] + sorted
    else
      var rest := Insert(value, sorted[1..]);
      assert ([sorted[0]] + rest)[1..] == rest;
      [sorted[0]] + rest
  }

  function SortByLength(values: seq<string>): (r: seq<string>)
    ensures forall x :: x in r <==> x in values
    ensures LongestFirst(r)
  {
    if values == [] then [] else Insert(values[0], SortByLength(values[1..]))
  }

  function EmphasisValues(v: Variables): seq<string> {
    SortByLength(Long(Candidates(v)))
  }

  lemma {:induction false} LongKeeps(values: seq<Option<string>>, x: string)
    ensures x in Long(values) <==> Some(x) in values && |Trim(x)| > 1
  {
    if values != [] {
      LongKeeps(values[1..], x);
      assert values == [values[0]] + values[1..];
    }
  }

  /** What the segmenter relies on: exactly the values longer than one character once trimmed, longest first. */
  lemma EmphasisValuesAre(v: Variables)
    ensures LongestFirst(EmphasisValues(v))
    ensures forall x :: x in EmphasisValues(v) <==>
      && |Trim(x)| > 1
      && (x == v.invoiceNumber || x == v.amountDue || x == v.dueDate || Some(x) == v.customerName || Some(x) == v.brandName)
    ensures "" !in EmphasisValues(v)
  {
    forall x ensures x in EmphasisValues(v) <==> Some(x) in Candidates(v) && |Trim(x)| > 1 {
      LongKeeps(Candidates(v), x);
    }
  }

  // --- Segmentation -----------------------------------------------------------------

  predicate StartsAt(line: string, i: nat, x: string) {
    i + |x| <= |line| && line[i..i + |x|] == x
  }

  /** The first alternative that matches at position i, as a regular expression tries them. */
  function MatchAt(line: string, i: nat, values: seq<string>): (m: Option<string>)
    requires i <= |line|
    ensures m.Some? ==> StartsAt(line, i, m.value)
  {
    if values == [] then None
    else if StartsAt(line, i, values[0]) then Some(values[0])
    else MatchAt(line, i, values[1..])
  }

  /** A match is one of the values, and a longest one; no match means that no value starts here. */
  lemma {:induction false} MatchIsLongest(line: string, i: nat, values: seq<string>, x: string)
    requires i <= |line|
    ensures var m := MatchAt(line, i, values);
      && (m.Some? ==> m.value in values)
      && (x in values && StartsAt(line, i, x) ==> m.Some?)
      && (x in values && StartsAt(line, i, x) && LongestFirst(values) ==> |x| <= |m.value|)
  {
    if values != [] && !StartsAt(line, i, values[0]) {
      MatchIsLongest(line, i, values[1..], x);
      assert values == [values[0]] + values[1..];
    }
  }

  /**
   * `line.split(/(a|b|...)/)`: text and captured match alternate. The last split ended at p and
   * the scan stands at q.
   */
  function Split(line: string, values: seq<string>, p: nat, q: nat): (parts: seq<string>)
    requires p <= q <= |line|
    ensures |parts| % 2 == 1
    decreases |line| - q
  {
    if q == |line| then [line[p..]]
    else
      match MatchAt(line, q, values)
      case None => Split(line, values, p, q + 1)
      case Some(x) =>
        if x == "" then [line[p..]] // no candidate is empty
        else [line[p..q], x] + Split(line, values, q + |x|, q + |x|)
  }

  function Concat(parts: seq<string>): string {
    if parts == [] then "" else parts[0] + Concat(parts[1..])
  }

  function NonEmpty(parts: seq<string>): seq<string> {
    if parts == [] then []
    else if parts[0] != "" then [parts[0]] + NonEmpty(parts[1..]) else NonEmpty(parts[1..])
  }

  function StrongTag(style: string): string {
    "strong style=\"" + style + "\""
  }

  function Render(part: string, values: seq<string>, style: string): string {
    if part in values then "<" + StrongTag(style) + ">" + (EscapeHtml(part) + "</strong>") else EscapeHtml(part)
  }

  function RenderAll(parts: seq<string>, values: seq<string>, style: string): string {
    if parts == [] then "" else Render(parts[0], values, style) + RenderAll(parts[1..], values, style)
  }

  function Emphasise(line: string, values: seq<string>, style: string): string
    requires "" !in values
  {
    if values == [] then EscapeHtml(line)
    else RenderAll(NonEmpty(Split(line, values, 0, 0)), values, style)
  }

  /** Concatenating the parts gives the line back. */
  lemma {:induction false} SplitConcat(line: string, values: seq<string>, p: nat, q: nat)
    requires p <= q <= |line|
    ensures Concat(Split(line, values, p, q)) == line[p..]
    decreases |line| - q
  {
    if q == |line| || MatchAt(line, q, values) == Some("") {
      assert Concat([line[p..]]) == line[p..] + Concat([]);
    } else {
      match MatchAt(line, q, values)
      case None => SplitConcat(line, values, p, q + 1);
      case Some(x) =>
        var end := q + |x|;
        SplitConcat(line, values, end, end);
        var rest := Split(line, values, end, end);
        assert Concat([line[p..q], x] + rest) == line[p..q] + (x + Concat(rest)) by {
          assert ([line[p..q], x] + rest)[1..] == [x] + rest && ([x] + rest)[1..] == rest;
        }
        assert line[p..] == line[p..q] + (line[q..end] + line[end..]);
    }
  }

  /**
   * One part standing at position `at`: emphasised exactly when the pattern captured it, and then
   * the longest value available there; otherwise text in which no value starts anywhere.
   */
  ghost predicate Faithful(line: string, values: seq<string>, part: string, at: nat, captured: bool) {
    && StartsAt(line, at, part)
    && (part != "" ==> (part in values <==> captured))
    && (captured ==> part in values)
    && (captured ==> forall x | x in values && StartsAt(line, at, x) :: |x| <= |part|)
    && (!captured ==> forall j, x | at <= j < at + |part| && x in values :: !StartsAt(line, j, x))
  }

  /** The parts tile the line from `at` to its end, text and captured match in turn. */
  ghost predicate Tiles(line: string, values: seq<string>, parts: seq<string>, at: nat, captured: bool) {
    if parts == [] then at == |line|
    else
      && Faithful(line, values, parts[0], at, captured)
      && Tiles(line, values, parts[1..], at + |parts[0]|, !captured)
  }

  lemma TextIsFaithful(line: string, values: seq<string>, p: nat, q: nat)
    requires p <= q <= |line|
    requires forall j | p <= j < q :: MatchAt(line, j, values).None?
    ensures Faithful(line, values, line[p..q], p, false)
  {
    forall j, x | p <= j < q && x in values ensures !StartsAt(line, j, x) {
      MatchIsLongest(line, j, values, x);
    }
    assert StartsAt(line, p, line[p..q]);
  }

  lemma MatchIsFaithful(line: string, values: seq<string>, q: nat, x: string)
    requires q <= |line| && LongestFirst(values) && MatchAt(line, q, values) == Some(x)
    ensures x in values && Faithful(line, values, x, q, true)
  {
    MatchIsLongest(line, q, values, x);
    forall y | y in values && StartsAt(line, q, y) ensures |y| <= |x| {
      MatchIsLongest(line, q, values, y);
    }
  }

  lemma TilesCons(line: string, values: seq<string>, text: string, x: string, rest: seq<string>, p: nat, q: nat)
    requires p + |text| == q && Faithful(line, values, text, p, false) && Faithful(line, values, x, q, true)
    requires Tiles(line, values, rest, q + |x|, false)
    ensures Tiles(line, values, [text, x] + rest, p, false)
  {
    var parts, tail := [text, x] + rest, [x] + rest;
    assert parts[0] == text && parts[1..] == tail;
    assert tail[0] == x && tail[1..] == rest;
    assert Tiles(line, values, tail, q, true);
  }

  lemma SplitAtMatch(line: string, values: seq<string>, p: nat, q: nat, x: string)
    requires p <= q < |line| && x != "" && MatchAt(line, q, values) == Some(x)
    ensures Split(line, values, p, q) == [line[p..q], x] + Split(line, values, q + |x|, q + |x|)
  {
  }

  /** A match found at q extends the tiling of what follows it. */
  lemma TilesMatch(line: string, values: seq<string>, p: nat, q: nat, x: string)
    requires LongestFirst(values) && p <= q < |line| && x != "" && MatchAt(line, q, values) == Some(x)
    requires forall j | p <= j < q :: MatchAt(line, j, values).None?
    requires Tiles(line, values, Split(line, values, q + |x|, q + |x|), q + |x|, false)
    ensures Tiles(line, values, Split(line, values, p, q), p, false)
  {
    SplitAtMatch(line, values, p, q, x);
    TextIsFaithful(line, values, p, q);
    MatchIsFaithful(line, values, q, x);
    TilesCons(line, values, line[p..q], x, Split(line, values, q + |x|, q + |x|), p, q);
  }

  lemma TilesEnd(line: string, values: seq<string>, p: nat)
    requires p <= |line|
    requires forall j | p <= j < |line| :: MatchAt(line, j, values).None?
    ensures Tiles(line, values, [line[p..]], p, false)
  {
    TextIsFaithful(line, values, p, |line|);
    assert line[p..] == line[p..|line|];
    assert Tiles(line, values, [], |line|, true);
  }

  lemma {:induction false} SplitTiles(line: string, values: seq<string>, p: nat, q: nat)
    requires "" !in values && LongestFirst(values) && p <= q <= |line|
    requires forall j | p <= j < q :: MatchAt(line, j, values).None?
    ensures Tiles(line, values, Split(line, values, p, q), p, false)
    decreases |line| - q
  {
    if q == |line| {
      TilesEnd(line, values, p);
    } else {
      match MatchAt(line, q, values)
      case None => SplitTiles(line, values, p, q + 1);
      case Some(x) =>
        MatchIsLongest(line, q, values, x);
        SplitTiles(line, values, q + |x|, q + |x|);
        TilesMatch(line, values, p, q, x);
    }
  }

  /** Text and captured values in turn, each marked in its own way. */
  ghost function Marked(parts: seq<string>, captured: bool, mark: (string, bool) -> string): string {
    if parts == [] then "" else mark(parts[0], captured) + Marked(parts[1..], !captured, mark)
  }

  /** Text as it is, escaped, and a captured value in a strong element of the style. */
  ghost function InStrong(style: string): (string, bool) -> string {
    (part: string, captured: bool) =>
      if captured then "<strong style=\"" + style + "\">" + (EscapeHtml(part) + "</strong>") else EscapeHtml(part)
  }

  /** Testing a part for membership finds exactly the captured ones. */
  lemma {:induction false} RenderMarks(line: string, values: seq<string>, parts: seq<string>, at: nat, captured: bool, style: string)
    requires "" !in values && Tiles(line, values, parts, at, captured)
    ensures RenderAll(NonEmpty(parts), values, style) == Marked(parts, captured, InStrong(style))
  {
    if parts != [] {
      assert Faithful(line, values, parts[0], at, captured);
      RenderMarks(line, values, parts[1..], at + |parts[0]|, !captured, style);
      RenderStep(parts, values, captured, style);
    }
  }

  lemma RenderStep(parts: seq<string>, values: seq<string>, captured: bool, style: string)
    requires parts != [] && (if parts[0] == "" then !captured else parts[0] in values <==> captured)
    requires RenderAll(NonEmpty(parts[1..]), values, style) == Marked(parts[1..], !captured, InStrong(style))
    ensures RenderAll(NonEmpty(parts), values, style) == Marked(parts, captured, InStrong(style))
  {
    var rest := Marked(parts[1..], !captured, InStrong(style));
    if parts[0] == "" {
      EscapePlain("");
      assert NonEmpty(parts) == NonEmpty(parts[1..]);
      assert EscapeHtml(parts[0]) + rest == rest;
    } else {
      RenderCons(parts[0], NonEmpty(parts[1..]), values, style);
      RenderIs(parts[0], values, captured, style);
    }
  }

  lemma RenderCons(part: string, rest: seq<string>, values: seq<string>, style: string)
    ensures RenderAll([part] + rest, values, style) == Render(part, values, style) + RenderAll(rest, values, style)
  {
    assert ([part] + rest)[1..] == rest;
  }

  lemma RenderIs(part: string, values: seq<string>, captured: bool, style: string)
    requires part in values <==> captured
    ensures Render(part, values, style) == InStrong(style)(part, captured)
  {
    assert "<" + StrongTag(style) + ">" == "<strong style=\"" + style + "\">";
  }

  /** However a line is tiled, the text it is marked as is the same. */
  lemma {:induction false} OneMarking(
    line: string, values: seq<string>, a: seq<string>, b: seq<string>, at: nat, captured: bool, mark: (string, bool) -> string)
    requires "" !in values && Tiles(line, values, a, at, captured) && Tiles(line, values, b, at, captured)
    requires mark("", false) == ""
    ensures Marked(a, captured, mark) == Marked(b, captured, mark)
  {
    if a != [] && b != [] {
      SameHead(line, values, a, b, at, captured);
      OneMarking(line, values, a[1..], b[1..], at + |a[0]|, !captured, mark);
    } else if a != [] {
      EndIsEmpty(line, values, a, captured, mark);
    } else if b != [] {
      EndIsEmpty(line, values, b, captured, mark);
    }
  }

  lemma SameHead(line: string, values: seq<string>, a: seq<string>, b: seq<string>, at: nat, captured: bool)
    requires "" !in values && a != [] && b != []
    requires Tiles(line, values, a, at, captured) && Tiles(line, values, b, at, captured)
    ensures a[0] == b[0]
  {
    if !captured {
      NotShorter(line, values, a, b, at);
      NotShorter(line, values, b, a, at);
    }
    assert |a[0]| == |b[0]|;
    assert a[0] == line[at..at + |a[0]|] == b[0];
  }

  lemma NotShorter(line: string, values: seq<string>, a: seq<string>, b: seq<string>, at: nat)
    requires a != [] && b != [] && Tiles(line, values, a, at, false) && Tiles(line, values, b, at, false)
    ensures |a[0]| >= |b[0]|
  {
    assert a[1..] != [] ==> Faithful(line, values, a[1..][0], at + |a[0]|, true);
  }

  lemma EndIsEmpty(line: string, values: seq<string>, parts: seq<string>, captured: bool, mark: (string, bool) -> string)
    requires "" !in values && parts != [] && Tiles(line, values, parts, |line|, captured) && mark("", false) == ""
    ensures Marked(parts, captured, mark) == ""
  {
    assert !captured && parts[0] == "";
    assert Tiles(line, values, parts[1..], |line|, true);
    assert parts[1..] == [];
  }

  /**
   * Emphasis keeps the text and marks exactly the leftmost longest values: the line is tiled by text
   * in which no value starts and by longest values, in turn, and the output is those parts, escaped,
   * each value and nothing else in a strong element.
   */
  lemma EmphasisMarks(v: Variables, line: string, style: string)
    ensures "" !in EmphasisValues(v)
    ensures exists parts :: Concat(parts) == line && Tiles(line, EmphasisValues(v), parts, 0, false)
    ensures forall parts | Tiles(line, EmphasisValues(v), parts, 0, false) ::
      Emphasise(line, EmphasisValues(v), style) == Marked(parts, false, InStrong(style))
  {
    EmphasisValuesAre(v);
    var values := EmphasisValues(v);
    var parts := Split(line, values, 0, 0);
    SplitConcat(line, values, 0, 0);
    SplitTiles(line, values, 0, 0);
    assert line[0..] == line;
    RenderMarks(line, values, parts, 0, false, style);
    EscapePlain("");
    forall other | Tiles(line, values, other, 0, false)
      ensures Emphasise(line, values, style) == Marked(other, false, InStrong(style))
    {
      if values == [] {
        TextIsFaithful(line, values, 0, |line|);
        assert line[0..|line|] == line;
        WholeLineTiles(line, values, style);
        OneMarking(line, values, [line], other, 0, false, InStrong(style));
      } else {
        OneMarking(line, values, parts, other, 0, false, InStrong(style));
      }
    }
  }

  lemma WholeLineTiles(line: string, values: seq<string>, style: string)
    requires Faithful(line, values, line, 0, false)
    ensures Tiles(line, values, [line], 0, false) && Marked([line], false, InStrong(style)) == EscapeHtml(line)
  {
    assert [line][1..] == [];
    assert Tiles(line, values, [], |line|, true);
  }

  // --- Removing the wrappers ---------------------------------------------------------

  /** Drops everything from a '<' to the next '>'. */
  function StripTags(html: string, inTag: bool): string {
    if html == "" then ""
    else if inTag then StripTags(html[1..], html[0] != '>')
    else if html[0] == '<' then StripTags(html[1..], true)
    else [html[0]] + StripTags(html[1..], false)
  }

  lemma {:induction false} StripText(a: string, b: string)
    requires '<' !in a
    ensures StripTags(a + b, false) == a + StripTags(b, false)
  {
    if a == "" {
      assert a + b == b;
    } else {
      StripText(a[1..], b);
      assert (a + b)[1..] == a[1..] + b;
    }
  }

  lemma {:induction false} StripInside(a: string, b: string)
    requires '>' !in a
    ensures StripTags(a + ">" + b, true) == StripTags(b, false)
  {
    if a == "" {
      assert (a + ">" + b)[1..] == b;
    } else {
      StripInside(a[1..], b);
      assert (a + ">" + b)[1..] == a[1..] + ">" + b;
    }
  }

  lemma StripTag(a: string, b: string)
    requires '>' !in a
    ensures StripTags("<" + a + ">" + b, false) == StripTags(b, false)
  {
    StripInside(a, b);
    assert ("<" + a + ">" + b)[1..] == a + ">" + b;
  }

  /** Text between an opening tag and a closing one. */
  lemma StripElement(start: string, text: string, close: string, rest: string)
    requires '>' !in start && '<' !in text
    requires StripTags(close + rest, false) == StripTags(rest, false)
    ensures StripTags("<" + start + ">" + (text + close) + rest, false) == text + StripTags(rest, false)
  {
    StripTag(start, text + (close + rest));
    StripText(text, close + rest);
    Associates(text, close, rest);
    Associates("<" + start + ">", text + close, rest);
  }

  lemma StripStrongEnd(rest: string)
    ensures StripTags("</strong>" + rest, false) == StripTags(rest, false)
  {
    StripTag("/strong", rest);
    assert "</strong>" == "<" + "/strong" + ">";
  }

  lemma TagIsPlain(style: string)
    requires '>' !in style
    ensures '>' !in StrongTag(style)
  {
  }

  lemma StripRendered(part: string, values: seq<string>, style: string, rest: string)
    requires '>' !in style
    ensures StripTags(Render(part, values, style) + rest, false) == EscapeHtml(part) + StripTags(rest, false)
  {
    EscapedIsInert(part);
    if part in values {
      TagIsPlain(style);
      StripStrongEnd(rest);
      StripElement(StrongTag(style), EscapeHtml(part), "</strong>", rest);
    } else {
      StripText(EscapeHtml(part), rest);
    }
  }

  lemma {:induction false} StripRenderedAll(parts: seq<string>, values: seq<string>, style: string, rest: string)
    requires '>' !in style
    ensures StripTags(RenderAll(NonEmpty(parts), values, style) + rest, false) == EscapeHtml(Concat(parts)) + StripTags(rest, false)
  {
    if parts == [] {
      assert "" + rest == rest;
    } else {
      StripRenderedAll(parts[1..], values, style, rest);
      EscapeConcat(parts[0], Concat(parts[1..]));
      if parts[0] != "" {
        StripFirst(parts[0], values, style, RenderAll(NonEmpty(parts[1..]), values, style), rest);
        Associates(EscapeHtml(parts[0]), EscapeHtml(Concat(parts[1..])), StripTags(rest, false));
      }
    }
  }

  lemma StripFirst(part: string, values: seq<string>, style: string, tail: string, rest: string)
    requires '>' !in style
    ensures StripTags(Render(part, values, style) + tail + rest, false) == EscapeHtml(part) + StripTags(tail + rest, false)
  {
    StripRendered(part, values, style, tail + rest);
    Associates(Render(part, values, style), tail, rest);
  }

  lemma StripEmphasised(line: string, values: seq<string>, style: string, rest: string)
    requires "" !in values && '>' !in style
    ensures StripTags(Emphasise(line, values, style) + rest, false) == EscapeHtml(line) + StripTags(rest, false)
  {
    EscapedIsInert(line);
    if values == [] {
      StripText(EscapeHtml(line), rest);
    } else {
      SplitConcat(line, values, 0, 0);
      assert line[0..] == line;
      StripRenderedAll(Split(line, values, 0, 0), values, style, rest);
    }
  }

  /** Removing the wrappers leaves the escaped line, and decoding that leaves the line. */
  lemma EmphasisRoundTrip(line: string, values: seq<string>, style: string)
    requires "" !in values && '>' !in style
    ensures StripTags(Emphasise(line, values, style), false) == EscapeHtml(line)
    ensures Decode(StripTags(Emphasise(line, values, style), false)) == line
  {
    EscapeRoundTrip(line);
    StripEmphasised(line, values, style, "");
    assert Emphasise(line, values, style) + "" == Emphasise(line, values, style);
  }

  // --- The subject and the body ---------------------------------------------------------

  const MARGIN := "p style=\"margin:0 0 12px;"
  const TEXT := "#334155"
  const STRONG := "#0F172A"
  const SUBJECT_TAG := MARGIN + "font-size:16px;" + "font-weight:700;color:" + STRONG + ";\""
  const LINE_TAG := MARGIN + "font-size:15px;" + "line-height:1.5;color:" + TEXT + ";\""
  const LINE_STYLE := "font-weight:700;color:" + STRONG + ";"
  const BETWEEN := "\n        "

  /** A line in its paragraph, with this invoice's values emphasised. */
  function Paragraph(v: Variables, line: string, tag: string, style: string): string {
    EmphasisValuesAre(v);
    "<" + tag + ">" + (Emphasise(line, EmphasisValues(v), style) + "</p>")
  }

  /** The subject carries the merchant's own colour. */
  function SubjectHtml(v: Variables, subject: string, theme: string): string {
    Paragraph(v, subject, SUBJECT_TAG, "color:" + EscapeHtml(theme) + ";")
  }

  /** `body.split('\n')`; `line` is what was read since the last newline. */
  function Lines(body: string, line: string): (r: seq<string>)
    ensures r != []
  {
    if body == "" then [line]
    else if body[0] == '\n' then [line] + Lines(body[1..], "")
    else Lines(body[1..], line + [body[0]])
  }

  function Shown(lines: seq<string>): seq<string> {
    if lines == [] then []
    else if Trim(lines[0]) != "" then [lines[0]] + Shown(lines[1..]) else Shown(lines[1..])
  }

  function Paragraphs(v: Variables, lines: seq<string>, tag: string, style: string): seq<string> {
    if lines == [] then [] else [Paragraph(v, lines[0], tag, style)] + Paragraphs(v, lines[1..], tag, style)
  }

  function Join(parts: seq<string>): string {
    if parts == [] then "" else if |parts| == 1 then parts[0] else parts[0] + (BETWEEN + Join(parts[1..]))
  }

  function BodyHtml(v: Variables, body: string): string {
    Join(Paragraphs(v, Shown(Lines(body, "")), LINE_TAG, LINE_STYLE))
  }

  lemma StripParagraph(v: Variables, line: string, tag: string, style: string, rest: string)
    requires '>' !in tag && '>' !in style
    ensures StripTags(Paragraph(v, line, tag, style) + rest, false) == EscapeHtml(line) + StripTags(rest, false)
  {
    EmphasisValuesAre(v);
    var marked := Emphasise(line, EmphasisValues(v), style);
    StripEmphasised(line, EmphasisValues(v), style, "</p>" + rest);
    StripEnd(rest);
    StripTag(tag, marked + ("</p>" + rest));
    Associates(marked, "</p>", rest);
    Associates("<" + tag + ">", marked + "</p>", rest);
  }

  lemma StripEnd(rest: string)
    ensures StripTags("</p>" + rest, false) == StripTags(rest, false)
  {
    StripTag("/p", rest);
    assert "</p>" == "<" + "/p" + ">";
  }

  lemma StripGap(tail: string)
    ensures StripTags(BETWEEN + tail, false) == BETWEEN + StripTags(tail, false)
  {
    StripText(BETWEEN, tail);
  }

  lemma {:induction false} StripJoined(v: Variables, lines: seq<string>, tag: string, style: string)
    requires '>' !in tag && '>' !in style
    ensures StripTags(Join(Paragraphs(v, lines, tag, style)), false) == EscapeHtml(Join(lines))
  {
    if |lines| == 1 {
      var only := Paragraph(v, lines[0], tag, style);
      StripParagraph(v, lines[0], tag, style, "");
      assert only + "" == only && EscapeHtml(lines[0]) + "" == EscapeHtml(lines[0]);
    } else if lines != [] {
      var tail := Join(Paragraphs(v, lines[1..], tag, style));
      StripParagraph(v, lines[0], tag, style, BETWEEN + tail);
      StripGap(tail);
      StripJoined(v, lines[1..], tag, style);
      EscapeJoined(lines[0], BETWEEN, Join(lines[1..]));
      assert Paragraphs(v, lines, tag, style)[1..] == Paragraphs(v, lines[1..], tag, style);
    }
  }

  lemma EscapeJoined(line: string, gap: string, rest: string)
    requires '&' !in gap && '<' !in gap && '>' !in gap && '"' !in gap
    ensures EscapeHtml(line + (gap + rest)) == EscapeHtml(line) + (gap + EscapeHtml(rest))
  {
    EscapeConcat(line, gap + rest);
    EscapeConcat(gap, rest);
    EscapePlain(gap);
  }

  lemma EscapePlain(text: string)
    requires '&' !in text && '<' !in text && '>' !in text && '"' !in text
    ensures EscapeHtml(text) == text
  {
    ReplaceAllAbsent(text, '&', "&amp;");
    ReplaceAllAbsent(text, '<', "&lt;");
    ReplaceAllAbsent(text, '>', "&gt;");
    ReplaceAllAbsent(text, '"', "&quot;");
  }

  lemma LooksArePlain()
    ensures '>' !in SUBJECT_TAG && '>' !in LINE_TAG && '>' !in LINE_STYLE
  {
  }

  /** Splitting loses nothing: joined by newlines again, the lines are the body, and none holds a newline. */
  lemma {:induction false} LinesAreTheBody(body: string, line: string)
    requires '\n' !in line
    ensures Unsplit(Lines(body, line)) == line + body
    ensures forall l | l in Lines(body, line) :: '\n' !in l
  {
    if body == "" {
      assert line + body == line;
    } else if body[0] == '\n' {
      LinesAreTheBody(body[1..], "");
      assert line + "\n" + ("" + body[1..]) == line + body;
      assert Lines(body[1..], "") != [];
    } else {
      LinesAreTheBody(body[1..], line + [body[0]]);
      assert line + [body[0]] + body[1..] == line + body;
    }
  }

  function Unsplit(lines: seq<string>): string {
    if lines == [] then "" else if |lines| == 1 then lines[0] else lines[0] + "\n" + Unsplit(lines[1..])
  }

  lemma SubjectReadsBack(v: Variables, subject: string, theme: string)
    ensures Decode(StripTags(SubjectHtml(v, subject, theme), false)) == subject
  {
    var style := "color:" + EscapeHtml(theme) + ";";
    EscapedIsInert(theme);
    LooksArePlain();
    StripParagraph(v, subject, SUBJECT_TAG, style, "");
    EscapeRoundTrip(subject);
    var html := SubjectHtml(v, subject, theme);
    assert html + "" == html && EscapeHtml(subject) + "" == EscapeHtml(subject);
  }

  /**
   * The email says what was written: whatever the subject, the body, the values and the theme colour
   * hold, dropping the markup and reading the entities back gives the subject, and the body's lines
   * without the blank ones.
   */
  lemma MessageReadsBack(v: Variables, subject: string, body: string, theme: string)
    ensures Decode(StripTags(SubjectHtml(v, subject, theme), false)) == subject
    ensures Decode(StripTags(BodyHtml(v, body), false)) == Join(Shown(Lines(body, "")))
    ensures Unsplit(Lines(body, "")) == body && forall l | l in Lines(body, "") :: '\n' !in l
  {
    LinesAreTheBody(body, "");
    SubjectReadsBack(v, subject, theme);
    LooksArePlain();
    StripJoined(v, Shown(Lines(body, "")), LINE_TAG, LINE_STYLE);
    EscapeRoundTrip(Join(Shown(Lines(body, ""))));
  }

  lemma {:induction false} ShownConcat(a: seq<string>, b: seq<string>)
    ensures Shown(a + b) == Shown(a) + Shown(b)
  {
    if a == [] {
      assert a + b == b;
    } else {
      ShownConcat(a[1..], b);
      assert (a + b)[1..] == a[1..] + b;
      if Trim(a[0]) != "" {
        LinesAssociate([a[0]], Shown(a[1..]), Shown(b));
      }
    }
  }

  lemma LinesAssociate(a: seq<string>, b: seq<string>, c: seq<string>)
    ensures a + (b + c) == a + b + c
  {
  }

  /** Exactly the lines with something on them are shown, in order. */
  lemma ShownAre(before: seq<string>, line: string, after: seq<string>)
    ensures Shown(before + [line] + after) == Shown(before) + (if Blank(line) then [] else [line]) + Shown(after)
  {
    ShownConcat(before + [line], after);
    ShownConcat(before, [line]);
    ShownOne(line);
  }

  lemma ShownOne(line: string)
    ensures Shown([line]) == if Blank(line) then [] else [line]
  {
    TrimEmptiesBlank(line);
    assert [line][1..] == [];
  }

  lemma {:induction false} ParagraphAt(v: Variables, lines: seq<string>, tag: string, style: string, i: nat)
    requires i < |lines|
    ensures |Paragraphs(v, lines, tag, style)| == |lines|
    ensures Paragraphs(v, lines, tag, style)[i] == Paragraph(v, lines[i], tag, style)
  {
    if |lines| > 1 {
      ParagraphAt(v, lines[1..], tag, style, if i > 0 then i - 1 else 0);
    }
  }

  /** A tiled line in its paragraph. */
  ghost function MarkedParagraph(parts: seq<string>, tag: string, style: string): string {
    "<" + tag + ">" + (Marked(parts, false, InStrong(style)) + "</p>")
  }

  lemma ParagraphIsMarked(v: Variables, line: string, tag: string, style: string)
    ensures forall parts | Tiles(line, EmphasisValues(v), parts, 0, false) ::
      Paragraph(v, line, tag, style) == MarkedParagraph(parts, tag, style)
  {
    EmphasisMarks(v, line, style);
  }

  /** The heading is the subject and every paragraph one shown line, marked in its own style. */
  lemma MessageIsMarked(v: Variables, subject: string, body: string, theme: string)
    ensures forall parts | Tiles(subject, EmphasisValues(v), parts, 0, false) ::
      SubjectHtml(v, subject, theme) == MarkedParagraph(parts, SUBJECT_TAG, "color:" + EscapeHtml(theme) + ";")
    ensures var lines := Shown(Lines(body, ""));
      exists paragraphs :: BodyHtml(v, body) == Join(paragraphs) && |paragraphs| == |lines|
        && forall i, parts | 0 <= i < |lines| && Tiles(lines[i], EmphasisValues(v), parts, 0, false) ::
             paragraphs[i] == MarkedParagraph(parts, LINE_TAG, LINE_STYLE)
  {
    ParagraphIsMarked(v, subject, SUBJECT_TAG, "color:" + EscapeHtml(theme) + ";");
    LinesAreMarked(v, Shown(Lines(body, "")), LINE_TAG, LINE_STYLE);
  }

  lemma LinesAreMarked(v: Variables, lines: seq<string>, tag: string, style: string)
    ensures var paragraphs := Paragraphs(v, lines, tag, style);
      && |paragraphs| == |lines|
      && forall i, parts | 0 <= i < |lines| && Tiles(lines[i], EmphasisValues(v), parts, 0, false) ::
           paragraphs[i] == MarkedParagraph(parts, tag, style)
  {
    if lines != [] { ParagraphAt(v, lines, tag, style, 0); }
    forall i, parts | 0 <= i < |lines| && Tiles(lines[i], EmphasisValues(v), parts, 0, false)
      ensures Paragraphs(v, lines, tag, style)[i] == MarkedParagraph(parts, tag, style)
    {
      ParagraphAt(v, lines, tag, style, i);
      ParagraphIsMarked(v, lines[i], tag, style);
    }
  }
}
