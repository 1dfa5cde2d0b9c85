/** The rules of the desktop form (app.py) that decide what reaches the
    composer: the role, the normalised workload, the preview placeholders,
    the checks before an individual save, the batch row fields, the output
    file names and the workload preset for each role. */
module FormRules {
  import opened Text
  import opened Composer

  /** What the form's widgets hold when a certificate is requested. */
  datatype Form = Form(
    personName: string,
    roleChoice: string,
    customRole: string,
    activity: string,
    eventName: string,
    hours: string,
    docKind: string,
    docNumber: string,
    useItalic: bool)

  /** The role: the custom text when the role box says "Outro", the box's
      label otherwise. */
  function SelectedRole(choice: string, custom: string): (r: string)
    ensures choice == "Outro" ==> r == custom
    ensures choice != "Outro" ==> r == choice
  {
    if choice == "Outro" then custom else choice
  }

  /** The workload as entered, made to end in "h": a value without the unit
      gets it appended, a value with it is kept, and an empty value becomes
      the placeholder "[Horas]". */
  function NormalizeHours(hours: string): (r: string)
    ensures r != ""
    ensures hours == "" ==> r == "[Horas]"
    ensures hours != "" ==> |r| >= |hours| && EndsWith(r, "h") && r[..|hours|] == hours
    ensures hours != "" ==> (r == hours <==> EndsWith(hours, "h"))
    ensures hours != "" && !EndsWith(hours, "h") ==> r == hours + "h"
  {
    if hours != "" && !EndsWith(hours, "h") then hours + "h"
    else if hours != "" then hours
    else "[Horas]"
  }

  /** Normalising a non-empty workload twice is normalising it once. The
      placeholder is not a fixed point: it does not end in "h". */
  lemma NormalizeHoursIdempotent(hours: string)
    ensures hours != "" ==> NormalizeHours(NormalizeHours(hours)) == NormalizeHours(hours)
    ensures NormalizeHours(NormalizeHours("")) == "[Horas]h"
  {
    assert !EndsWith("[Horas]", "h");
  }

  lemma NormalizeHoursExamples()
    ensures NormalizeHours("5") == "5h"
    ensures NormalizeHours("5h") == "5h"
  {
    assert !EndsWith("5", "h");
  }

  /** `get_current_data`: the form's fields for the composer. For the preview
      an empty name, role or event is shown as a placeholder; for a real
      certificate they are passed on as entered. The workload is always
      normalised and so never empty. */
  function CurrentData(form: Form, forPreview: bool): (r: Request)
    ensures r.hours == NormalizeHours(form.hours) && r.hours != ""
    ensures r.activity == form.activity && r.docKind == form.docKind && r.docNumber == form.docNumber
    ensures r.useItalic == form.useItalic
    ensures !forPreview ==> r.name == form.personName && r.eventName == form.eventName
                            && r.role == SelectedRole(form.roleChoice, form.customRole)
    ensures forPreview ==> r.name == (if form.personName == "" then "[Nome da Pessoa]" else form.personName)
    ensures forPreview ==> r.eventName == (if form.eventName == "" then "[Nome do Evento]" else form.eventName)
    ensures forPreview ==> var role := SelectedRole(form.roleChoice, form.customRole);
                           r.role == (if role == "" then "[Função]" else role)
  {
    var role := SelectedRole(form.roleChoice, form.customRole);
    Request(
      if forPreview && form.personName == "" then "[Nome da Pessoa]" else form.personName,
      if forPreview && role == "" then "[Função]" else role,
      form.activity,
      if forPreview && form.eventName == "" then "[Nome do Evento]" else form.eventName,
      NormalizeHours(form.hours),
      form.docKind,
      form.docNumber,
      form.useItalic)
  }

  /** In the preview no name, role or event is ever empty. */
  lemma PreviewIsComplete(form: Form)
    ensures var r := CurrentData(form, true);
            r.name != "" && r.role != "" && r.eventName != "" && r.hours != ""
  {
  }

  /** What the individual save does with the data. */
  datatype SaveOutcome = MissingFields | MissingDocument | Proceed

  /** The two checks of the individual save, in order: every field filled
      (the event only when its field is enabled), then a document number
      whenever a document kind is chosen. */
  function SaveDecision(data: Request, eventEnabled: bool): (r: SaveOutcome)
    ensures r == MissingFields <==>
              data.name == "" || data.activity == "" || data.hours == "" || data.role == ""
              || (eventEnabled && data.eventName == "")
    ensures r == MissingDocument <==>
              r != MissingFields && data.docKind != "Nenhum" && data.docNumber == ""
    ensures r == Proceed ==>
              data.name != "" && data.role != "" && data.hours != "" && (!eventEnabled || data.eventName != "")
              && (data.docKind == "Nenhum" || data.docNumber != "")
  {
    if data.name == "" || data.activity == "" || data.hours == "" || data.role == ""
       || (eventEnabled && data.eventName == "") then MissingFields
    else if data.docKind != "Nenhum" && data.docNumber == "" then MissingDocument
    else Proceed
  }

  /** On the form's own data the workload check can never fail: the save is
      refused for missing fields exactly when the name, activity or role is
      empty, or the enabled event field is. */
  lemma SaveIgnoresHours(form: Form, eventEnabled: bool)
    ensures SaveDecision(CurrentData(form, false), eventEnabled) == MissingFields <==>
              form.personName == "" || form.activity == ""
              || SelectedRole(form.roleChoice, form.customRole) == ""
              || (eventEnabled && form.eventName == "")
  {
  }

  /** The check before a batch: activity and workload filled and, when the
      event field is enabled, the event too. */
  function BatchReady(common: Request, eventEnabled: bool): (r: bool)
    ensures r ==> common.activity != "" && common.hours != ""
    ensures r <==> common.activity != "" && common.hours != "" && !(eventEnabled && common.eventName == "")
  {
    !(common.activity == "" || common.hours == "") && !(eventEnabled && common.eventName == "")
  }

  /** On the form's own data the batch check does not depend on the workload. */
  lemma BatchReadyIgnoresHours(form: Form, eventEnabled: bool)
    ensures BatchReady(CurrentData(form, false), eventEnabled) <==>
              form.activity != "" && !(eventEnabled && form.eventName == "")
  {
  }

  /** A spreadsheet cell: the row's value for a column, "" when absent. */
  function Cell(row: map<string, string>, column: string): string {
    if column in row then row[column] else ""
  }

  const NameColumn := "Nome da Pessoa"
  const DocKindColumn := "Tipo de Documento"
  const DocNumberColumn := "Nº do Documento"
  const RoleColumn := "Função do Participante"
  const CustomRoleColumn := "Função Customizada (se Outro)"

  /** The data of one batch row: the form's common data with the person's
      name, document and role taken from the row; the role follows the same
      "Outro" rule as the form. */
  function BatchRequest(common: Request, row: map<string, string>): (r: Request)
    ensures r.name == Cell(row, NameColumn)
    ensures r.docKind == Cell(row, DocKindColumn) && r.docNumber == Cell(row, DocNumberColumn)
    ensures r.role == SelectedRole(Cell(row, RoleColumn), Cell(row, CustomRoleColumn))
    ensures r.activity == common.activity && r.eventName == common.eventName
            && r.hours == common.hours && r.useItalic == common.useItalic
  {
    common.(name := Cell(row, NameColumn),
            docKind := Cell(row, DocKindColumn),
            docNumber := Cell(row, DocNumberColumn),
            role := SelectedRole(Cell(row, RoleColumn), Cell(row, CustomRoleColumn)))
  }

  /** The suggested file name of an individual certificate: the name with
      its spaces turned into underscores, between "certificado_" and ".pdf".
      It holds no space, and the name can be read back from it when the name
      itself had no underscore. */
  function IndividualFilename(name: string): (r: string)
    ensures |r| == |name| + 16
    ensures r[..12] == "certificado_" && EndsWith(r, ".pdf")
    ensures forall i :: 0 <= i < |r| ==> r[i] != ' '
    ensures r[12..|r| - 4] == ReplaceChar(name, ' ', '_')
    ensures (forall i :: 0 <= i < |name| ==> name[i] != '_') ==> ReplaceChar(r[12..|r| - 4], '_', ' ') == name
  {
    var stem := ReplaceChar(name, ' ', '_');
    ReplaceCharRoundTrip(name, ' ', '_');
    var r := "certificado_" + stem + ".pdf";
    assert r[12..|r| - 4] == stem;
    r
  }

  /** The file name of a batch certificate: the name with its spaces turned
      into underscores, then "-" and the document number unless the number
      reads "nan" (an empty cell), then ".pdf". */
  function BatchFilename(name: string, docNumber: string): (r: string)
    ensures EndsWith(r, ".pdf")
    ensures |r| >= |name| + 4 && r[..|name|] == ReplaceChar(name, ' ', '_')
    ensures docNumber == "nan" ==> |r| == |name| + 4
    ensures docNumber != "nan" ==> r[|name|..|r| - 4] == "-" + docNumber
  {
    var stem := ReplaceChar(name, ' ', '_');
    var docPart := if docNumber != "nan" then "-" + docNumber else "";
    var r := stem + docPart + ".pdf";
    assert r[..|name|] == stem;
    assert r[|name|..|r| - 4] == docPart;
    r
  }

  /** The workload preset of each role, in hours. */
  const RoleHours: map<string, nat> :=
    map["Ouvinte" := 5, "Palestrante" := 2, "Apresentador(a)" := 10,
        "Organizador(a)" := 10, "Mediador(a)" := 2, "Debatedor(a)" := 2]

  predicate IsDigits(s: string) {
    forall i :: 0 <= i < |s| ==> '0' <= s[i] <= '9'
  }

  /** The number a string of decimal digits denotes. */
  function DigitsValue(s: string): nat
    requires IsDigits(s)
  {
    if s == [] then 0 else DigitsValue(s[..|s| - 1]) * 10 + (s[|s| - 1] as int - 0x30)
  }

  /** `str(n)` for a natural number: the decimal digits denoting `n`, with
      no leading zero. */
  function Decimal(n: nat): (r: string)
    ensures r != [] && IsDigits(r)
    ensures DigitsValue(r) == n
    ensures n > 0 ==> r[0] != '0'
    ensures n == 0 ==> r == "0"
  {
    if n < 10 then [(0x30 + n) as char]
    else
      var front := Decimal(n / 10);
      var r := front + [(0x30 + n % 10) as char];
      assert r[..|r| - 1] == front;
      r
  }

  /** The workload field after a role is chosen: cleared for "Outro" (and
      for a role without a preset), the role's preset otherwise. */
  function HoursForRole(choice: string): (r: string)
    ensures r != "" <==> choice != "Outro" && choice in RoleHours
    ensures choice in RoleHours ==> r == Decimal(RoleHours[choice])
  {
    if choice == "Outro" then ""
    else if choice in RoleHours then Decimal(RoleHours[choice])
    else ""
  }

  /** A preset workload has no unit, so normalising appends it; a cleared one
      becomes the placeholder. */
  lemma PresetHoursGetUnit(choice: string)
    ensures choice in RoleHours ==> NormalizeHours(HoursForRole(choice)) == HoursForRole(choice) + "h"
    ensures choice !in RoleHours ==> NormalizeHours(HoursForRole(choice)) == "[Horas]"
  {
    var h := HoursForRole(choice);
    if choice in RoleHours {
      assert '0' <= h[|h| - 1] <= '9';
      assert !EndsWith(h, "h");
    }
  }

  lemma HoursForRoleExamples()
    ensures HoursForRole("Ouvinte") == "5"
    ensures HoursForRole("Apresentador(a)") == "10"
    ensures HoursForRole("Outro") == ""
  {
  }
}
