/** The text composer of the certificate generator (the part of
    `gerar_certificado` in core.py that builds the paragraph): it fills the
    empty fields with bracketed placeholders, normalises their case, builds
    the identity-document clause and cuts the paragraph into three styled
    segments, which the layout engine then draws. */
module Composer {
  import opened Text
  import opened Layout

  /** The fields of one certificate, as the caller hands them over. */
  datatype Request = Request(
    name: string,
    role: string,
    activity: string,
    eventName: string,
    hours: string,
    docKind: string,
    docNumber: string,
    useItalic: bool)

  /** Where the paragraph is anchored on the template, and its width budget. */
  const BlockPosition: (real, real) := (250.0, 600.0)
  const MaxWidth: real := 1500.0

  /** The person's name, defaulted first and upper-cased afterwards. */
  function PersonName(name: string): (r: string)
    ensures forall i :: 0 <= i < |r| ==> !IsLowerLetter(r[i])
    ensures name != "" ==> Lower(r) == Lower(name)
    ensures name == "" ==> r == "[NOME DA PESSOA]"
  {
    UpperNormalises(name);
    Upper(if name != "" then name else "[Nome da Pessoa]")
  }

  /** The participant's role: lower-cased when given, otherwise the
      placeholder, which keeps its capital. */
  function RoleText(role: string): (r: string)
    ensures role != "" ==> (forall i :: 0 <= i < |r| ==> !IsUpperLetter(r[i])) && Upper(r) == Upper(role)
    ensures role == "" ==> r == "[Função]"
  {
    LowerNormalises(role);
    if role != "" then Lower(role) else "[Função]"
  }

  /** A field that falls back to a placeholder when it is empty, as
      `value if value else placeholder` does. */
  function OrDefault(value: string, placeholder: string): (r: string)
    ensures r == "" <==> value == "" && placeholder == ""
    ensures value != "" ==> r == value
    ensures value == "" ==> r == placeholder
  {
    if value != "" then value else placeholder
  }

  /** The activity type, defaulted; it is lower-cased where it is used. */
  function ActivityText(activity: string): string {
    OrDefault(activity, "[Tipo de Atividade]")
  }

  /** As it is used in the opening, the activity reads in lower case; the
      placeholder reads "[tipo de atividade]". */
  lemma ActivityTextLower(activity: string)
    ensures Lower(ActivityText(activity)) == if activity != "" then Lower(activity) else "[tipo de atividade]"
  {
  }

  /** The workload, defaulted. */
  function HoursText(hours: string): string {
    OrDefault(hours, "[Horas]")
  }

  /** The identity-document clause that follows the name: it names the
      document only for a CPF or a Matrícula whose number is given, and is a
      bare comma otherwise. */
  function DocumentClause(kind: string, number: string): (r: string)
    ensures |r| >= 1 && r[0] == ',' && r[|r| - 1] == ','
    ensures r == "," <==> !((kind == "CPF" || kind == "Matrícula") && number != "")
    ensures kind == "CPF" && number != "" ==> r == ", portador(a) do CPF " + number + ","
    ensures kind == "Matrícula" && number != "" ==> r == ", portador(a) da matrícula nº " + number + ","
  {
    if kind == "CPF" && number != "" then ", portador(a) do CPF " + number + ","
    else if kind == "Matrícula" && number != "" then ", portador(a) da matrícula nº " + number + ","
    else ","
  }

  /** The opening sentence, up to and including the space before the event. */
  function Opening(req: Request): string {
    OpeningText(PersonName(req.name), DocumentClause(req.docKind, req.docNumber),
                RoleText(req.role), Lower(ActivityText(req.activity)))
  }

  /** The opening assembled from its already formatted parts. */
  function OpeningText(name: string, clause: string, role: string, activity: string): string {
    var head := "Certificamos que " + name;
    var tail := clause + " participou como " + role + " da atividade de " + activity + " ";
    head + tail
  }

  /** The opening starts with "Certificamos que " and the person's name,
      followed by the document clause's comma, and ends with a space that
      keeps the event apart from it. */
  lemma OpeningShape(req: Request)
    ensures var r := Opening(req);
            var name := PersonName(req.name);
            |r| > 17 + |name| && r[..17] == "Certificamos que " && r[17..17 + |name|] == name
            && r[17 + |name|] == ',' && r[|r| - 1] == ' '
  {
    var head := "Certificamos que " + PersonName(req.name);
    var clause := DocumentClause(req.docKind, req.docNumber);
    var tail := clause + " participou como " + RoleText(req.role)
      + " da atividade de " + Lower(ActivityText(req.activity)) + " ";
    assert tail[0] == clause[0] && tail[|tail| - 1] == ' ';
    var r := head + tail;
    assert r[..|head|] == head && r[|head|] == tail[0];
  }

  /** Where the document clause and the role land in an assembled opening. */
  lemma OpeningTextRole(name: string, clause: string, role: string, activity: string)
    ensures var r := OpeningText(name, clause, role, activity);
            OccursAt(r, clause, 17 + |name|)
            && OccursAt(r, " participou como ", 17 + |name| + |clause|)
            && OccursAt(r, role, 17 + |name| + |clause| + 17)
  {
    var head := "Certificamos que " + name;
    var c1 := clause + " participou como ";
    var tail := c1 + role + " da atividade de " + activity + " ";
    assert tail[..|clause|] == clause;
    assert tail[|clause|..|c1|] == " participou como ";
    assert tail[|c1|..|c1| + |role|] == role;
    OccursAtShift(head, tail, clause, 0);
    OccursAtShift(head, tail, " participou como ", |clause|);
    OccursAtShift(head, tail, role, |c1|);
  }

  /** Where the activity lands in an assembled opening, and that only the
      final space follows it. */
  lemma OpeningTextActivity(name: string, clause: string, role: string, activity: string)
    ensures var r := OpeningText(name, clause, role, activity);
            var at := 17 + |name| + |clause| + |role|;
            |r| == at + 35 + |activity|
            && OccursAt(r, " da atividade de ", at + 17)
            && OccursAt(r, activity, at + 34)
  {
    var head := "Certificamos que " + name;
    var c2 := clause + " participou como " + role;
    var c3 := c2 + " da atividade de ";
    var tail := c3 + activity + " ";
    assert tail[|c2|..|c3|] == " da atividade de ";
    assert tail[|c3|..|c3| + |activity|] == activity;
    OccursAtShift(head, tail, " da atividade de ", |c2|);
    OccursAtShift(head, tail, activity, |c3|);
  }

  /** After the name, the opening holds the document clause, then
      " participou como " and the lower-cased role. */
  lemma OpeningMentionsRole(req: Request)
    ensures var r := Opening(req);
            var at := 17 + |PersonName(req.name)|;
            var clause := DocumentClause(req.docKind, req.docNumber);
            OccursAt(r, clause, at)
            && OccursAt(r, " participou como ", at + |clause|)
            && OccursAt(r, RoleText(req.role), at + |clause| + 17)
  {
    OpeningTextRole(PersonName(req.name), DocumentClause(req.docKind, req.docNumber),
                    RoleText(req.role), Lower(ActivityText(req.activity)));
  }

  /** After the role, the opening holds " da atividade de " and the
      lower-cased activity, and nothing else but the final space. */
  lemma OpeningMentionsActivity(req: Request)
    ensures var r := Opening(req);
            var at := 17 + |PersonName(req.name)| + |DocumentClause(req.docKind, req.docNumber)| + |RoleText(req.role)|;
            var activity := Lower(ActivityText(req.activity));
            |r| == at + 35 + |activity|
            && OccursAt(r, " da atividade de ", at + 17)
            && OccursAt(r, activity, at + 34)
  {
    OpeningTextActivity(PersonName(req.name), DocumentClause(req.docKind, req.docNumber),
                        RoleText(req.role), Lower(ActivityText(req.activity)));
  }

  /** The event name in double quotes, or nothing when there is no event. */
  function EventText(eventName: string): (r: string)
    ensures r == "" <==> eventName == ""
    ensures eventName != "" ==> |r| == |eventName| + 2 && r[0] == '"' && r[|r| - 1] == '"' && r[1..|r| - 1] == eventName
  {
    if eventName != "" then "\"" + eventName + "\"" else ""
  }

  /** The event is italic only when italics are asked for and there is an event. */
  function EventStyle(useItalic: bool, eventName: string): (r: Style)
    ensures r == Italic <==> useItalic && eventName != ""
  {
    if useItalic && eventName != "" then Italic else Regular
  }

  /** The closing clause with the workload. */
  function Closing(hours: string): string {
    " com carga horária de " + HoursText(hours) + "."
  }

  /** The closing starts with a space that keeps it apart from the event,
      holds the workload text and ends the sentence. */
  lemma ClosingShape(hours: string)
    ensures var r := Closing(hours);
            |r| > 23 && r[0] == ' ' && r[|r| - 1] == '.'
            && r[..22] == " com carga horária de " && r[22..|r| - 1] == HoursText(hours)
  {
    var r := Closing(hours);
    assert r[..22] == " com carga horária de ";
    assert r[22..|r| - 1] == HoursText(hours);
  }

  /** The three segments of the paragraph: opening, event and closing, in
      this order, only the event possibly italic. */
  function ComposeSegments(req: Request): (segs: seq<Segment>)
    ensures |segs| == 3
    ensures segs[0] == Segment(Opening(req), Regular)
    ensures segs[1].text == EventText(req.eventName)
    ensures segs[1].style == Italic <==> req.useItalic && req.eventName != ""
    ensures segs[2] == Segment(Closing(req.hours), Regular)
  {
    [ Segment(Opening(req), Regular),
      Segment(EventText(req.eventName), EventStyle(req.useItalic, req.eventName)),
      Segment(Closing(req.hours), Regular) ]
  }

  /** The word stream of a certificate is the opening's words, then the
      event's words in the event style, then the closing's words. */
  lemma ComposedStream(req: Request, measure: Measure)
    ensures WordStream(ComposeSegments(req), measure)
         == Tagged(Split(Opening(req)), Regular, measure)
            + Tagged(Split(EventText(req.eventName)), EventStyle(req.useItalic, req.eventName), measure)
            + Tagged(Split(Closing(req.hours)), Regular, measure)
  {
    var segs := ComposeSegments(req);
    assert segs == [segs[0], segs[1], segs[2]];
    WordStreamOfThree(segs[0], segs[1], segs[2], measure);
  }

  /** Italic words appear exactly when italics are asked for and there is an
      event name; then they are precisely the words of the quoted event name. */
  lemma ItalicOnlyForEvent(req: Request, measure: Measure)
    ensures (exists w :: w in WordStream(ComposeSegments(req), measure) && w.style == Italic)
            <==> req.useItalic && req.eventName != ""
    ensures req.useItalic && req.eventName != "" ==>
              forall w :: w in WordStream(ComposeSegments(req), measure) ==>
                (w.style == Italic <==> w in Tagged(Split(EventText(req.eventName)), Italic, measure))
  {
    var segs := ComposeSegments(req);
    if req.useItalic && req.eventName != "" {
      var ev := EventText(req.eventName);
      SplitNonBlank(ev, 0);
      ComposedStream(req, measure);
      var opening := Tagged(Split(Opening(req)), Regular, measure);
      var event := Tagged(Split(ev), Italic, measure);
      var closing := Tagged(Split(Closing(req.hours)), Regular, measure);
      assert WordStream(segs, measure) == opening + event + closing;
      var w := event[0];
      assert w in WordStream(segs, measure) && w.style == Italic;
      forall w | w in WordStream(segs, measure)
        ensures w.style == Italic <==> w in event
      {
        if w in opening {
          var i :| 0 <= i < |opening| && opening[i] == w;
        } else if w in closing {
          var i :| 0 <= i < |closing| && closing[i] == w;
        }
        if w in event {
          var i :| 0 <= i < |event| && event[i] == w;
        }
      }
    } else {
      if req.eventName == "" {
        SplitBlank(EventText(req.eventName));
      }
      WordStreamRegular(segs, measure);
    }
  }

  /** An empty event name leaves no trace: the certificate is drawn exactly
      as if the paragraph had only its opening and closing segments. */
  lemma EmptyEventLeavesNoTrace(req: Request, measure: Measure, capBottom: real, canvasWidth: nat)
    requires req.eventName == ""
    ensures var segs := ComposeSegments(req);
            Render(segs, measure, capBottom, canvasWidth, BlockPosition.1, MaxWidth)
            == Render([segs[0], segs[2]], measure, capBottom, canvasWidth, BlockPosition.1, MaxWidth)
  {
    var segs := ComposeSegments(req);
    SplitBlank(segs[1].text);
    assert segs == [segs[0], segs[1], segs[2]];
    RenderSkipsWordless(segs[0], segs[1], segs[2], measure, capBottom, canvasWidth, BlockPosition.1, MaxWidth);
  }

  /** The clause for the documented scenarios. */
  lemma DocumentClauseExamples()
    ensures DocumentClause("CPF", "123") == ", portador(a) do CPF 123,"
    ensures DocumentClause("Nenhum", "123") == ","
    ensures DocumentClause("CPF", "") == ","
  {
  }

  /** `gerar_certificado` without the file loading: compose the paragraph and
      lay it out at the fixed anchor with the fixed width budget. `measure`
      stands for the two loaded fonts, `capBottom` for the regular font's box
      for A, `canvasWidth` for the template's width. */
  method GenerateCertificate(req: Request, measure: Measure, capBottom: real, canvasWidth: nat) returns (draws: seq<Draw>)
    ensures draws == Render(ComposeSegments(req), measure, capBottom, canvasWidth, BlockPosition.1, MaxWidth)
  {
    var segments := ComposeSegments(req);
    draws := DrawMixedStyleText(BlockPosition, segments, measure, capBottom, canvasWidth, MaxWidth);
  }
}
