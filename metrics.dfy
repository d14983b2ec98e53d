/**
 The metric line both programs print: a measurement name, comma-separated
 `key=value` tags, one space, one `key=value` field, one space and a
 nanosecond timestamp, as in
 `user_flow_performance,server=S,action=A time_taken=3 1700000000000000000`.
 Values are integers (the clock of this model counts whole ticks).
 */
module Metrics {
  import opened Options
  import opened Text

  datatype Point = Point(
    measurement: string,
    tags: seq<(string, string)>,
    field: string,
    value: int,
    timestamp: int)

  function TagText(tag: (string, string)): string {
    tag.0 + "=" + tag.1
  }

  function TagTexts(tags: seq<(string, string)>): (texts: seq<string>)
    ensures |texts| == |tags|
    ensures forall i :: 0 <= i < |tags| ==> texts[i] == TagText(tags[i])
    decreases |tags|
  {
    if tags == [] then [] else [TagText(tags[0])] + TagTexts(tags[1..])
  }

  /** The line of a point: head, field and timestamp separated by single spaces. */
  function Render(p: Point): string {
    Join([Join([p.measurement] + TagTexts(p.tags), ','),
          p.field + "=" + IntToString(p.value),
          IntToString(p.timestamp)], ' ')
  }

  /** The head of a line built left to right: the measurement, then `,key=value` for each tag in turn. */
  function HeadText(measurement: string, tags: seq<(string, string)>): string
    decreases |tags|
  {
    if tags == [] then measurement
    else HeadText(measurement, tags[..|tags| - 1]) + "," + TagText(tags[|tags| - 1])
  }

  lemma {:induction false} HeadTextJoin(measurement: string, tags: seq<(string, string)>)
    ensures HeadText(measurement, tags) == Join([measurement] + TagTexts(tags), ',')
    decreases |tags|
  {
    if tags != [] {
      var n := |tags| - 1;
      HeadTextJoin(measurement, tags[..n]);
      TagTextsSnoc(tags);
      AppendAssoc([measurement], TagTexts(tags[..n]), [TagText(tags[n])]);
      JoinSnoc([measurement] + TagTexts(tags[..n]), TagText(tags[n]), ',');
    }
  }

  lemma {:induction false} TagTextsSnoc(tags: seq<(string, string)>)
    requires tags != []
    ensures TagTexts(tags) == TagTexts(tags[..|tags| - 1]) + [TagText(tags[|tags| - 1])]
    decreases |tags|
  {
    var n := |tags| - 1;
    if n > 0 {
      var rest := tags[1..];
      TagTextsSnoc(rest);
      assert rest[..n - 1] == tags[..n][1..];
      assert tags[..n][0] == tags[0];
      AppendAssoc([TagText(tags[0])], TagTexts(rest[..n - 1]), [TagText(tags[n])]);
    }
  }

  /** The line of a point written out: head, space, `field=value`, space, timestamp. */
  lemma RenderText(p: Point)
    ensures Render(p) == HeadText(p.measurement, p.tags) + " " + p.field + "=" + IntToString(p.value)
                         + " " + IntToString(p.timestamp)
  {
    HeadTextJoin(p.measurement, p.tags);
    var top := [Join([p.measurement] + TagTexts(p.tags), ','), p.field + "=" + IntToString(p.value), IntToString(p.timestamp)];
    assert top[1..][1..] == top[2..];
    assert Join(top[1..], ' ') == top[1] + [' '] + top[2];
  }

  /** The first tag written after the measurement, as a literal `,key=` and the value. */
  lemma HeadFirst(m: string, literal: string, prefix: string, tag: (string, string))
    requires literal == "," + tag.0 + "=" && prefix == m + literal
    ensures HeadText(m, [tag]) == prefix + tag.1
  {
    assert [tag][..0] == [];
    TagGlue(m, literal, tag.0, tag.1);
  }

  /** One more tag written after a head already written out. */
  lemma HeadNext(m: string, tags: seq<(string, string)>, literal: string, head: string, tag: (string, string))
    requires literal == "," + tag.0 + "=" && HeadText(m, tags) == head
    ensures HeadText(m, tags + [tag]) == head + literal + tag.1
  {
    assert (tags + [tag])[..|tags|] == tags;
    TagGlue(head, literal, tag.0, tag.1);
  }

  lemma TagGlue(head: string, literal: string, key: string, value: string)
    requires literal == "," + key + "="
    ensures head + "," + TagText((key, value)) == head + literal + value
  {
  }

  /** The field and timestamp after a head, with the field written as a literal ` field=`. */
  lemma TailGlue(head: string, field: string, literal: string, value: string, timestamp: string)
    requires literal == " " + field + "="
    ensures head + " " + field + "=" + value + " " + timestamp == head + literal + value + " " + timestamp
  {
    assert head + " " + field + "=" == head + literal;
  }

  /** Reads the tags of a line back from their `key=value` texts. */
  function ParseTags(texts: seq<string>): Option<seq<(string, string)>>
    decreases |texts|
  {
    if texts == [] then Some([])
    else
      match (SplitFirst(texts[0], '='), ParseTags(texts[1..]))
      case (Some(kv), Some(rest)) => Some([kv] + rest)
      case _ => None
  }

  /** Reads a metric line back into its point; a malformed line is `None`. */
  function Parse(line: string): Option<Point> {
    var parts := Split(line, ' ');
    if |parts| != 3 then None
    else
      var head := Split(parts[0], ',');
      match (ParseTags(head[1..]), SplitFirst(parts[1], '='), ParseInt(parts[2]))
      case (Some(tags), Some(field), Some(timestamp)) =>
        (match ParseInt(field.1)
         case Some(value) => Some(Point(head[0], tags, field.0, value, timestamp))
         case None => None)
      case _ => None
  }

  predicate Plain(s: string) {
    ' ' !in s && ',' !in s
  }

  /** A point whose texts hold no separator that would make its line ambiguous. */
  predicate WellFormed(p: Point) {
    && Plain(p.measurement)
    && (forall i :: 0 <= i < |p.tags| ==> Plain(p.tags[i].0) && '=' !in p.tags[i].0 && Plain(p.tags[i].1))
    && ' ' !in p.field && '=' !in p.field
  }

  /** A tag that keeps its line well formed. */
  predicate TagWellFormed(tag: (string, string)) {
    Plain(tag.0) && '=' !in tag.0 && Plain(tag.1)
  }

  lemma KeyWellFormed(key: string, value: string)
    requires forall i :: 0 <= i < |key| ==> key[i] == '_' || 'a' <= key[i] <= 'z'
    requires Plain(value)
    ensures TagWellFormed((key, value))
  {
  }

  lemma {:induction false} ParseTagTexts(tags: seq<(string, string)>)
    requires forall i :: 0 <= i < |tags| ==> '=' !in tags[i].0
    ensures ParseTags(TagTexts(tags)) == Some(tags)
    decreases |tags|
  {
    if tags != [] {
      var texts := TagTexts(tags);
      SplitFirstAfter(tags[0].0, '=', tags[0].1);
      assert texts[0] == tags[0].0 + ['='] + tags[0].1;
      assert texts[1..] == TagTexts(tags[1..]);
      assert forall i :: 0 <= i < |tags[1..]| ==> '=' !in tags[1..][i].0 by {
        forall i | 0 <= i < |tags[1..]| ensures '=' !in tags[1..][i].0 {
          assert tags[1..][i] == tags[i + 1];
        }
      }
      ParseTagTexts(tags[1..]);
      assert tags == [tags[0]] + tags[1..];
    }
  }

  lemma HeadTextsPlain(p: Point)
    requires WellFormed(p)
    ensures var texts := [p.measurement] + TagTexts(p.tags);
      forall i :: 0 <= i < |texts| ==> ' ' !in texts[i] && ',' !in texts[i]
  {
    var texts := [p.measurement] + TagTexts(p.tags);
    forall i | 0 <= i < |texts| ensures ' ' !in texts[i] && ',' !in texts[i] {
      if i > 0 {
        assert texts[i] == p.tags[i - 1].0 + "=" + p.tags[i - 1].1;
      }
    }
  }

  /** Every well-formed point is recovered from its line. */
  lemma RenderParse(p: Point)
    requires WellFormed(p)
    ensures Parse(Render(p)) == Some(p)
  {
    var texts := [p.measurement] + TagTexts(p.tags);
    var field := p.field + "=" + IntToString(p.value);
    RenderSplits(p);
    HeadSplits(p);
    FieldSplits(p);
    ParseIntToString(p.value);
    ParseIntToString(p.timestamp);
    assert Split(Render(p), ' ') == [Join(texts, ','), field, IntToString(p.timestamp)];
  }

  /** The line splits on spaces into its head, its field and its timestamp. */
  lemma RenderSplits(p: Point)
    requires WellFormed(p)
    ensures Split(Render(p), ' ')
         == [Join([p.measurement] + TagTexts(p.tags), ','), p.field + "=" + IntToString(p.value), IntToString(p.timestamp)]
  {
    var texts := [p.measurement] + TagTexts(p.tags);
    HeadTextsPlain(p);
    JoinExcludes(texts, ',', ' ');
    IntToStringHasNoSeparator(p.value, ' ');
    IntToStringHasNoSeparator(p.timestamp, ' ');
    var field := p.field + "=" + IntToString(p.value);
    assert ' ' !in field;
    SplitJoin([Join(texts, ','), field, IntToString(p.timestamp)], ' ');
  }

  /** The head splits on commas into the measurement and the tags' texts, which read back as the tags. */
  lemma HeadSplits(p: Point)
    requires WellFormed(p)
    ensures var texts := [p.measurement] + TagTexts(p.tags);
      Split(Join(texts, ','), ',') == texts && ParseTags(texts[1..]) == Some(p.tags)
  {
    var texts := [p.measurement] + TagTexts(p.tags);
    HeadTextsPlain(p);
    SplitJoin(texts, ',');
    assert texts[1..] == TagTexts(p.tags);
    ParseTagTexts(p.tags);
  }

  /** The field text splits at its first `=` into the field's name and its value's text. */
  lemma FieldSplits(p: Point)
    requires WellFormed(p)
    ensures SplitFirst(p.field + "=" + IntToString(p.value), '=') == Some((p.field, IntToString(p.value)))
  {
    assert p.field + "=" + IntToString(p.value) == p.field + ['='] + IntToString(p.value);
    SplitFirstAfter(p.field, '=', IntToString(p.value));
  }

  /** Two well-formed points with the same line are the same point. */
  lemma RenderInjective(p: Point, q: Point)
    requires WellFormed(p) && WellFormed(q)
    requires Render(p) == Render(q)
    ensures p == q
  {
    RenderParse(p);
    RenderParse(q);
  }
}
