/**
 * The dashboard fragments app.py builds from the parsed briefing: the
 * schedule and action lists, the traffic panel, the numbered hot-take blocks
 * and the draft blocks, each labelled by the hot take at the same position.
 */
module Dashboard {
  import opened Wrappers
  import opened Text
  import opened Html

  /** One entry of `hot_takes`; a field is None when its key is missing. */
  datatype HotTake = HotTake(
    subject: Option<Value>,
    sender: Option<Value>,
    summary: Option<Value>,
    crucialNote: Option<Value>)

  /** The `traffic` object; `newThreads` is its `new` key. */
  datatype Traffic = Traffic(total: Option<Value>, newThreads: Option<Value>, continuing: Option<Value>)

  /** The parsed briefing object; a field is None when its key is missing. */
  datatype Briefing = Briefing(
    schedule: Option<seq<Value>>,
    actions: Option<seq<Value>>,
    traffic: Option<Traffic>,
    hotTakes: Option<seq<HotTake>>,
    drafts: Option<seq<Value>>)

  /** `item.get(key)`: the field's value, `None` when missing. */
  function Field(f: Option<Value>): Value
  {
    f.GetOr(Null)
  }

  // ---------------------------------------------------------------------
  // Schedule and action lists

  const ScheduleBullet := "\U{2022} "
  const ActionBullet := "\U{2610} "
  const Separator := "<br><br>"

  /** `[f"{bullet}{clean_text(item)}" for item in items]`. */
  function Bullets(items: seq<Value>, bullet: string): seq<string>
  {
    seq(|items|, i requires 0 <= i < |items| => bullet + CleanText(items[i]))
  }

  /** `"<br><br>".join(...)` of the bullets. */
  function BulletList(items: seq<Value>, bullet: string): string
  {
    Join(Bullets(items, bullet), Separator)
  }

  function ScheduleHtml(data: Briefing): string
  {
    BulletList(data.schedule.GetOr([]), ScheduleBullet)
  }

  function ActionsHtml(data: Briefing): string
  {
    BulletList(data.actions.GetOr([]), ActionBullet)
  }

  // ---------------------------------------------------------------------
  // Traffic panel

  const TrafficParts := ["<b>Total:</b> ", "<br><br><b>New Threads:</b> ", "<br><br><b>Replies:</b> ", ""]

  /** `data.get('traffic', {})`. */
  function TrafficStats(data: Briefing): Traffic
  {
    data.traffic.GetOr(Traffic(None, None, None))
  }

  /** `stats.get(key, 0)`. */
  function Counter(f: Option<Value>): Value
  {
    f.GetOr(Int(0))
  }

  /** The panel as app.py writes it: each counter's `str()` inserted without escaping. */
  function TrafficHtmlAsWritten(t: Traffic): string
  {
    Format(TrafficParts, [PyStr(Counter(t.total)), PyStr(Counter(t.newThreads)), PyStr(Counter(t.continuing))])
  }

  /**
   * The panel with each counter escaped like every other model-derived text
   * (`html.escape(str(v))`; not `clean_text`, which would blank a count of 0).
   */
  function TrafficHtml(t: Traffic): string
  {
    Format(TrafficParts, [Escape(PyStr(Counter(t.total))), Escape(PyStr(Counter(t.newThreads))),
                          Escape(PyStr(Counter(t.continuing)))])
  }

  // ---------------------------------------------------------------------
  // Hot takes

  const HotTakeParts := [
    "<div class=\"hot-take-item\">\n<span class=\"hot-take-title\">\U{1F525} ",
    ". ",
    "</span>\n<span class=\"hot-take-meta\"><b>From:</b> ",
    "</span>\n<span class=\"hot-take-meta\">",
    "</span>\n<span class=\"crucial-badge\">Crucial Note: ",
    "</span>\n</div>"]

  /** The block for the hot take shown with number `n`. */
  function HotTakeBlock(n: nat, h: HotTake): string
  {
    Format(HotTakeParts, [NatToString(n), CleanText(Field(h.subject)), CleanText(Field(h.sender)),
                          CleanText(Field(h.summary)), CleanText(Field(h.crucialNote))])
  }

  /** The blocks the loop appends, the `i`-th numbered `i+1`. */
  function HotTakeBlocks(hot: seq<HotTake>): seq<string>
  {
    seq(|hot|, i requires 0 <= i < |hot| => HotTakeBlock(i + 1, hot[i]))
  }

  /** The `for i, item in enumerate(hot_list): hot_html += ...` loop. */
  method HotTakesHtml(hot: seq<HotTake>) returns (html: string)
    ensures html == Concat(HotTakeBlocks(hot))
  {
    html := "";
    for i := 0 to |hot|
      invariant html == Concat(HotTakeBlocks(hot)[..i])
    {
      var item := hot[i];
      var sSubj := CleanText(Field(item.subject));
      var sSend := CleanText(Field(item.sender));
      var sSumm := CleanText(Field(item.summary));
      var sNote := CleanText(Field(item.crucialNote));
      html := html + Format(HotTakeParts, [NatToString(i + 1), sSubj, sSend, sSumm, sNote]);
      ConcatSnoc(HotTakeBlocks(hot), i);
    }
    assert HotTakeBlocks(hot)[..|hot|] == HotTakeBlocks(hot);
  }

  // ---------------------------------------------------------------------
  // Drafts

  const DraftParts := [
    "<div class=\"draft-wrapper\">\n<span class=\"draft-label\">Draft for: \"",
    "\"</span>\n<div class=\"draft-block\">",
    "</div>\n</div>"]

  const Placeholder := "Email Response"

  /** The label of draft `i`: the subject of hot take `i` if there is one. */
  function DraftLabel(hot: seq<HotTake>, i: nat): string
  {
    if i < |hot| then CleanText(Field(hot[i].subject)) else Placeholder
  }

  /** The draft f-string: the label, then `clean_text(d)` in the draft block. */
  function DraftBlock(subjectRef: string, d: Value): string
  {
    Format(DraftParts, [subjectRef, CleanText(d)])
  }

  function DraftBlocks(hot: seq<HotTake>, drafts: seq<Value>): seq<string>
  {
    seq(|drafts|, i requires 0 <= i < |drafts| => DraftBlock(DraftLabel(hot, i), drafts[i]))
  }

  /** The `for i, d in enumerate(draft_list): draft_html += ...` loop. */
  method DraftsHtml(hot: seq<HotTake>, drafts: seq<Value>) returns (html: string)
    ensures html == Concat(DraftBlocks(hot, drafts))
  {
    html := "";
    for i := 0 to |drafts|
      invariant html == Concat(DraftBlocks(hot, drafts)[..i])
    {
      var subjectRef := Placeholder;
      if i < |hot| {
        subjectRef := CleanText(Field(hot[i].subject));
      }
      var cleanDraft := CleanText(drafts[i]);
      html := html + Format(DraftParts, [subjectRef, cleanDraft]);
      ConcatSnoc(DraftBlocks(hot, drafts), i);
    }
    assert DraftBlocks(hot, drafts)[..|drafts|] == DraftBlocks(hot, drafts);
  }

  /**
   * Reference for the labels: the cleaned subjects of the first hot takes,
   * cut to the number of drafts, padded with the placeholder.
   */
  function PaddedLabels(hot: seq<HotTake>, n: nat): (r: seq<string>)
    ensures |r| == n
  {
    var m := if |hot| < n then |hot| else n;
    seq(m, i requires 0 <= i < m => CleanText(Field(hot[i].subject))) + seq(n - m, _ => Placeholder)
  }

  // ---------------------------------------------------------------------
  // The whole dashboard

  datatype Fragments = Fragments(schedule: string, actions: string, traffic: string, hotTakes: string, drafts: string)

  function HotList(data: Briefing): seq<HotTake>
  {
    data.hotTakes.GetOr([])
  }

  function DraftList(data: Briefing): seq<Value>
  {
    data.drafts.GetOr([])
  }

  /** The markup a template carries of its own, with every field empty. */
  function TemplateMarkup(parts: seq<string>): nat
    requires |parts| > 0
  {
    CountChar(Format(parts, Blanks(|parts| - 1)), '<')
  }

  /** Integer or missing counters: the shape the briefing asks the model for. */
  predicate IntegerCounters(t: Traffic)
  {
    Counter(t.total).Int? && Counter(t.newThreads).Int? && Counter(t.continuing).Int?
  }

  /** The HTML strings app.py builds once a briefing has been parsed, as written. */
  method RenderAsWritten(data: Briefing) returns (f: Fragments)
    ensures f == Fragments(ScheduleHtml(data), ActionsHtml(data), TrafficHtmlAsWritten(TrafficStats(data)),
                           Concat(HotTakeBlocks(HotList(data))),
                           Concat(DraftBlocks(HotList(data), DraftList(data))))
    ensures IntegerCounters(TrafficStats(data)) ==>
              f.traffic == TrafficHtml(TrafficStats(data)) && CountChar(f.traffic, '<') == TemplateMarkup(TrafficParts)
    ensures CountChar(f.hotTakes, '<') == |HotList(data)| * TemplateMarkup(HotTakeParts)
    ensures CountChar(f.drafts, '<') == |DraftList(data)| * TemplateMarkup(DraftParts)
  {
    var schedHtml := BulletList(data.schedule.GetOr([]), ScheduleBullet);
    var actHtml := BulletList(data.actions.GetOr([]), ActionBullet);
    var trafHtml := TrafficHtmlAsWritten(TrafficStats(data));
    var hotList := data.hotTakes.GetOr([]);
    var hotHtml := HotTakesHtml(hotList);
    var draftHtml := DraftsHtml(hotList, data.drafts.GetOr([]));
    f := Fragments(schedHtml, actHtml, trafHtml, hotHtml, draftHtml);
    if IntegerCounters(TrafficStats(data)) {
      TrafficIntegersUnchanged(TrafficStats(data));
      TrafficMarkup(TrafficStats(data));
    }
    HotTakesMarkup(hotList);
    DraftsMarkup(hotList, DraftList(data));
  }

  /**
   * The corrected dashboard: the same fragments, with the traffic panel's
   * counters escaped like every other model-derived text.
   */
  method Render(data: Briefing) returns (f: Fragments)
    ensures f == Fragments(ScheduleHtml(data), ActionsHtml(data), TrafficHtml(TrafficStats(data)),
                           Concat(HotTakeBlocks(HotList(data))),
                           Concat(DraftBlocks(HotList(data), DraftList(data))))
    ensures CountChar(f.traffic, '<') == TemplateMarkup(TrafficParts)
    ensures CountChar(f.hotTakes, '<') == |HotList(data)| * TemplateMarkup(HotTakeParts)
    ensures CountChar(f.drafts, '<') == |DraftList(data)| * TemplateMarkup(DraftParts)
  {
    f := RenderAsWritten(data);
    f := f.(traffic := TrafficHtml(TrafficStats(data)));
    TrafficMarkup(TrafficStats(data));
  }

  // ---------------------------------------------------------------------
  // Lemmas

  lemma CleanTextHasNoTag(v: Value)
    ensures '<' !in CleanText(v)
  {
  }

  /**
   * One bullet per item, in order, each the bullet followed by the cleaned
   * item, and `""` for no items: splitting at `<br><br>` gives the bullets back.
   */
  lemma BulletListItems(items: seq<Value>, bullet: string)
    requires '<' !in bullet
    ensures items == [] ==> BulletList(items, bullet) == ""
    ensures items != [] ==>
              var parts := Split(BulletList(items, bullet), Separator);
              |parts| == |items| && forall i :: 0 <= i < |items| ==> parts[i] == bullet + CleanText(items[i])
  {
    if items != [] {
      var bullets := Bullets(items, bullet);
      forall i | 0 <= i < |bullets|
        ensures Separator[0] !in bullets[i]
      {
        CleanTextHasNoTag(items[i]);
      }
      SplitJoin(bullets, Separator);
    }
  }

  /** The schedule card holds one `• ` bullet per schedule item; a missing key gives `""`. */
  lemma ScheduleItems(data: Briefing)
    ensures data.schedule.None? ==> ScheduleHtml(data) == ""
    ensures var items := data.schedule.GetOr([]);
            items != [] ==>
              var parts := Split(ScheduleHtml(data), Separator);
              |parts| == |items| && forall i :: 0 <= i < |items| ==> parts[i] == ScheduleBullet + CleanText(items[i])
  {
    BulletListItems(data.schedule.GetOr([]), ScheduleBullet);
  }

  /** The action card holds one `☐ ` bullet per action; a missing key gives `""`. */
  lemma ActionItems(data: Briefing)
    ensures data.actions.None? ==> ActionsHtml(data) == ""
    ensures var items := data.actions.GetOr([]);
            items != [] ==>
              var parts := Split(ActionsHtml(data), Separator);
              |parts| == |items| && forall i :: 0 <= i < |items| ==> parts[i] == ActionBullet + CleanText(items[i])
  {
    BulletListItems(data.actions.GetOr([]), ActionBullet);
  }

  /** The traffic f-string with its three fields filled in. */
  lemma TrafficPanelText(total: string, newThreads: string, continuing: string)
    ensures Format(TrafficParts, [total, newThreads, continuing])
            == "<b>Total:</b> " + total + "<br><br><b>New Threads:</b> " + newThreads
               + "<br><br><b>Replies:</b> " + continuing
  {
    var parts, fields := TrafficParts, [total, newThreads, continuing];
    assert parts[1..] == ["<br><br><b>New Threads:</b> ", "<br><br><b>Replies:</b> ", ""];
    assert parts[1..][1..] == ["<br><br><b>Replies:</b> ", ""];
    assert parts[1..][1..][1..] == [""];
    assert fields[1..] == [newThreads, continuing];
    assert fields[1..][1..] == [continuing];
    assert fields[1..][1..][1..] == [];
    assert Format(parts[1..][1..], fields[1..][1..]) == "<br><br><b>Replies:</b> " + continuing by {
      assert continuing + "" == continuing;
    }
    assert Format(parts[1..], fields[1..])
           == "<br><br><b>New Threads:</b> " + newThreads + ("<br><br><b>Replies:</b> " + continuing);
  }

  /**
   * In the panel as app.py builds it, a missing counter shows as the text `0`,
   * while an explicit JSON null shows as `None`.
   */
  lemma TrafficCounterText(t: Traffic)
    ensures t.total.None? ==>
              TrafficHtmlAsWritten(t)
              == Format(TrafficParts, ["0", PyStr(Counter(t.newThreads)), PyStr(Counter(t.continuing))])
    ensures t.newThreads.None? ==>
              TrafficHtmlAsWritten(t)
              == Format(TrafficParts, [PyStr(Counter(t.total)), "0", PyStr(Counter(t.continuing))])
    ensures t.continuing.None? ==>
              TrafficHtmlAsWritten(t)
              == Format(TrafficParts, [PyStr(Counter(t.total)), PyStr(Counter(t.newThreads)), "0"])
    ensures t.total == Some(Null) ==>
              TrafficHtmlAsWritten(t)
              == Format(TrafficParts, ["None", PyStr(Counter(t.newThreads)), PyStr(Counter(t.continuing))])
    ensures t.newThreads == Some(Null) ==>
              TrafficHtmlAsWritten(t)
              == Format(TrafficParts, [PyStr(Counter(t.total)), "None", PyStr(Counter(t.continuing))])
    ensures t.continuing == Some(Null) ==>
              TrafficHtmlAsWritten(t)
              == Format(TrafficParts, [PyStr(Counter(t.total)), PyStr(Counter(t.newThreads)), "None"])
  {
    assert NatToString(0) == "0";
  }

  /** A missing `traffic` key reads as `{}`: all three counters show `0`. */
  lemma TrafficMissingKey(data: Briefing)
    requires data.traffic.None?
    ensures TrafficHtmlAsWritten(TrafficStats(data))
            == "<b>Total:</b> " + "0" + "<br><br><b>New Threads:</b> " + "0" + "<br><br><b>Replies:</b> " + "0"
  {
    assert NatToString(0) == "0";
    TrafficPanelText("0", "0", "0");
  }

  /** For integer counters (what the briefing asks for) escaping changes nothing. */
  lemma TrafficIntegersUnchanged(t: Traffic)
    requires IntegerCounters(t)
    ensures TrafficHtml(t) == TrafficHtmlAsWritten(t)
  {
    IntToStringPlain(Counter(t.total).n);
    IntToStringPlain(Counter(t.newThreads).n);
    IntToStringPlain(Counter(t.continuing).n);
  }

  lemma EscapeHasNoTag(s: string)
    ensures '<' !in Escape(s)
  {
    EscapeIsEscaped(s);
  }

  /** The panel carries the template's markup and no more, whatever the counters hold. */
  lemma TrafficMarkup(t: Traffic)
    ensures CountChar(TrafficHtml(t), '<') == TemplateMarkup(TrafficParts)
  {
    var fields := [Escape(PyStr(Counter(t.total))), Escape(PyStr(Counter(t.newThreads))),
                   Escape(PyStr(Counter(t.continuing)))];
    EscapeHasNoTag(PyStr(Counter(t.total)));
    EscapeHasNoTag(PyStr(Counter(t.newThreads)));
    EscapeHasNoTag(PyStr(Counter(t.continuing)));
    FormatFieldsFree(TrafficParts, fields, '<');
  }

  /** As written, a `<` in any string-valued counter reaches the panel's markup. */
  lemma TrafficInjectionAsWritten(t: Traffic, s: string)
    requires '<' in s
    requires Counter(t.total) == Str(s) || Counter(t.newThreads) == Str(s) || Counter(t.continuing) == Str(s)
    ensures CountChar(TrafficHtmlAsWritten(t), '<') > TemplateMarkup(TrafficParts)
  {
    var fields := [PyStr(Counter(t.total)), PyStr(Counter(t.newThreads)), PyStr(Counter(t.continuing))];
    FormatCount(TrafficParts, fields, '<');
    assert fields[1..][1..][1..] == [];
    CountCharPresent(s, '<');
    assert FieldsCount(fields[1..][1..], '<') == CountChar(fields[2], '<');
    assert FieldsCount(fields[1..], '<') == CountChar(fields[1], '<') + CountChar(fields[2], '<');
    if Counter(t.total) == Str(s) {
      assert fields[0] == s;
    } else if Counter(t.newThreads) == Str(s) {
      assert fields[1] == s;
    } else {
      assert fields[2] == s;
    }
  }

  /** Each hot-take block carries the template's markup and no more. */
  lemma HotTakeBlockMarkup(n: nat, h: HotTake)
    ensures CountChar(HotTakeBlock(n, h), '<') == TemplateMarkup(HotTakeParts)
  {
    var fields := [NatToString(n), CleanText(Field(h.subject)), CleanText(Field(h.sender)),
                   CleanText(Field(h.summary)), CleanText(Field(h.crucialNote))];
    CleanTextHasNoTag(Field(h.subject));
    CleanTextHasNoTag(Field(h.sender));
    CleanTextHasNoTag(Field(h.summary));
    CleanTextHasNoTag(Field(h.crucialNote));
    FormatFieldsFree(HotTakeParts, fields, '<');
  }

  lemma TemplatesHaveMarkup()
    ensures TemplateMarkup(HotTakeParts) > 0 && TemplateMarkup(DraftParts) > 0
  {
    FormatStartsWith(HotTakeParts, Blanks(5));
    var h := Format(HotTakeParts, Blanks(5));
    assert HotTakeParts[0] == "<div class=\"hot-take-item\">\n<span class=\"hot-take-title\">\U{1F525} ";
    assert h[..|HotTakeParts[0]|][0] == h[0];
    CountCharPresent(h, '<');
    FormatStartsWith(DraftParts, Blanks(2));
    var d := Format(DraftParts, Blanks(2));
    assert DraftParts[0] == "<div class=\"draft-wrapper\">\n<span class=\"draft-label\">Draft for: \"";
    assert d[..|DraftParts[0]|][0] == d[0];
    CountCharPresent(d, '<');
  }

  /**
   * The hot-takes fragment is `len(hot_takes)` blocks' worth of template
   * markup and nothing else: no field brings in a tag.
   */
  lemma HotTakesMarkup(hot: seq<HotTake>)
    ensures CountChar(Concat(HotTakeBlocks(hot)), '<') == |hot| * TemplateMarkup(HotTakeParts)
  {
    var blocks := HotTakeBlocks(hot);
    forall i | 0 <= i < |blocks|
      ensures CountChar(blocks[i], '<') == TemplateMarkup(HotTakeParts)
    {
      HotTakeBlockMarkup(i + 1, hot[i]);
    }
    CountCharConcat(blocks, '<', TemplateMarkup(HotTakeParts));
  }

  /** Block `i` opens its title with a number that reads back as `i+1`. */
  lemma HotTakeNumbered(hot: seq<HotTake>, i: nat)
    requires i < |hot|
    ensures var title := HotTakeParts[0] + NatToString(i + 1) + ". ";
            StartsWith(HotTakeBlocks(hot)[i], title)
    ensures ParseNat(NatToString(i + 1)) == i + 1
  {
    var h := hot[i];
    var fields := [NatToString(i + 1), CleanText(Field(h.subject)), CleanText(Field(h.sender)),
                   CleanText(Field(h.summary)), CleanText(Field(h.crucialNote))];
    var rest := Format(HotTakeParts[1..][1..], fields[1..][1..]);
    assert HotTakeParts[1..][0] == ". ";
    assert Format(HotTakeParts[1..], fields[1..]) == ". " + fields[1] + rest;
    var block := HotTakeParts[0] + NatToString(i + 1) + (". " + fields[1] + rest);
    var title := HotTakeParts[0] + NatToString(i + 1) + ". ";
    assert block[..|title|] == title;
    ParseNatToString(i + 1);
  }

  lemma DraftBlockMarkup(hot: seq<HotTake>, i: nat, d: Value)
    ensures CountChar(DraftBlock(DraftLabel(hot, i), d), '<') == TemplateMarkup(DraftParts)
  {
    if i < |hot| {
      CleanTextHasNoTag(Field(hot[i].subject));
    }
    CleanTextHasNoTag(d);
    FormatFieldsFree(DraftParts, [DraftLabel(hot, i), CleanText(d)], '<');
  }

  /** The drafts fragment is `len(drafts)` blocks' worth of template markup and nothing else. */
  lemma DraftsMarkup(hot: seq<HotTake>, drafts: seq<Value>)
    ensures CountChar(Concat(DraftBlocks(hot, drafts)), '<') == |drafts| * TemplateMarkup(DraftParts)
  {
    var blocks := DraftBlocks(hot, drafts);
    forall i | 0 <= i < |blocks|
      ensures CountChar(blocks[i], '<') == TemplateMarkup(DraftParts)
    {
      DraftBlockMarkup(hot, i, drafts[i]);
    }
    CountCharConcat(blocks, '<', TemplateMarkup(DraftParts));
  }

  /** Zip with default: draft `i` is labelled by the padded subject list at `i`. */
  lemma DraftLabelsPadded(hot: seq<HotTake>, drafts: seq<Value>)
    ensures forall i :: 0 <= i < |drafts| ==>
              DraftBlocks(hot, drafts)[i] == DraftBlock(PaddedLabels(hot, |drafts|)[i], drafts[i])
  {
  }

  /** Hot takes beyond the number of drafts are never read. */
  lemma DraftsIgnoreSurplusHotTakes(hot: seq<HotTake>, extra: seq<HotTake>, drafts: seq<Value>)
    requires |hot| >= |drafts|
    ensures DraftBlocks(hot + extra, drafts) == DraftBlocks(hot, drafts)
  {
  }

  /** Three hot takes and five drafts: drafts 0-2 take the subjects, drafts 3-4 the placeholder. */
  lemma ThreeHotTakesFiveDrafts(hot: seq<HotTake>, drafts: seq<Value>)
    requires |hot| == 3 && |drafts| == 5
    ensures |DraftBlocks(hot, drafts)| == 5 && |HotTakeBlocks(hot)| == 3
    ensures forall i :: 0 <= i < 3 ==>
              DraftBlocks(hot, drafts)[i] == DraftBlock(CleanText(Field(hot[i].subject)), drafts[i])
    ensures forall i :: 3 <= i < 5 ==> DraftBlocks(hot, drafts)[i] == DraftBlock(Placeholder, drafts[i])
  {
  }
}
