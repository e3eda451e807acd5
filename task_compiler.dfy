/**
 * The booking agent's instruction text, the f-string `book_appointment`
 * builds from the booking URL and the appointment record.  Apart from the URL,
 * which it names twice, and the "Appointment Information" block, which is the
 * JSON dump of the record's set fields, the text is a fixed template.
 */
module TaskCompiler {
  import opened Wrappers
  import opened AppointmentModel
  import JsonText

  // ---------------------------------------------------------------- the template

  /** The goal sentence up to the URL. */
  const GoalSentence: string := "Your goal is to book an appointment on the website at "

  /** A line break and the indent every template line carries. */
  const Indent: string := "\n    "

  /** The text before the first occurrence of the URL. */
  const GoalLead: string := Indent + GoalSentence

  /** From the end of the goal sentence to the JSON block. */
  const InformationHeader: string := ".\n    \n    **Appointment Information:**\n    "

  /** Instruction 1 up to the URL. */
  const NavigateStep: string := "1. Navigate to "

  /** From the JSON block to the second occurrence of the URL, in instruction 1. */
  const InstructionsTitle: string := "\n    \n    **Instructions:**\n    "

  const InstructionsHeader: string := InstructionsTitle + NavigateStep

  /** Instructions 2 to 10, each on its own line. */
  const RemainingSteps: string := @"
    2. Look for the appointment booking form or button to start booking
    3. Fill out ALL required fields with the provided information
    4. If a field is not provided in the data but is required, make a reasonable choice or skip if optional
    5. Select the appointment type, date, and time as close as possible to the preferences
    6. If the exact preferred date/time is not available, choose the closest available option
    7. Complete any additional steps (vehicle information, contact details, etc.)
    8. Review the information before submitting
    9. Submit the appointment booking
    10. Capture the confirmation number and appointment details"

  const Guidelines: string := @"
    
    **Important Guidelines:**
    - Work through the form step by step, filling one section at a time
    - If you encounter dropdowns, select the most appropriate option
    - If you encounter date/time pickers, use the provided preferences
    - Handle any pop-ups or modals that appear
    - If login is required and credentials are not provided, try to proceed as a guest
    - Take screenshots at key steps for verification
    - After submission, extract the confirmation number and appointment details"

  /**
   * The field mapping tips: form labels, and the dump key to use for them.
   * The text is split around the `vehicle_vin` key so that the lemmas can point at it.
   */
  const TipsUpToVin: string := @"
    
    **Field Mapping Tips:**
    - ""First Name"" / ""Given Name"" → use first_name
    - ""Last Name"" / ""Family Name"" / ""Surname"" → use last_name
    - ""Email"" / ""Email Address"" → use email
    - ""Phone"" / ""Phone Number"" / ""Mobile"" → use phone
    - ""Make"" / ""Manufacturer"" → use vehicle_make
    - ""Model"" → use vehicle_model
    - ""Year"" → use vehicle_year
    - ""VIN"" / ""VIN Number"" → use "

  const TipsAfterVin: string := @"
    - ""License Plate"" / ""Plate Number"" → use license_plate"

  const FieldMappingTips: string := TipsUpToVin + "vehicle_vin" + TipsAfterVin

  const SuccessCriteria: string := @"
    
    **Success Criteria:**
    - You must reach a confirmation page or receive a confirmation message
    - Extract the confirmation number if available
    - Note the final appointment date and time
    - Mark the task as successful only if you see confirmation"

  /** Everything after the URL in instruction 1, up to the closing quotes' indent. */
  const Closing: string := RemainingSteps + Guidelines + FieldMappingTips + SuccessCriteria + "\n    "

  /**
   * The shape of the f-string: fixed text around the URL, the JSON block and
   * the URL again.  The lemmas below hold for any choice of the fixed parts;
   * `BookingTemplate` is the one `book_appointment` writes.
   */
  datatype Template = Template(goalLead: string, informationHeader: string, instructionsHeader: string, closing: string)

  function BookingTemplate(): Template
  {
    Template(GoalLead, InformationHeader, InstructionsHeader, Closing)
  }

  /** `json.dumps(appointment_data.model_dump(exclude_none=True), indent=2)`. */
  function InformationBlock(d: AppointmentData): string
  {
    JsonText.Object(PresentFields(d))
  }

  /** The f-string with `block` in the place of the JSON dump. */
  function Render(tpl: Template, url: string, block: string): string
  {
    tpl.goalLead + url + tpl.informationHeader + block + tpl.instructionsHeader + url + tpl.closing
  }

  /** The task text `book_appointment` hands to the agent. */
  function Task(url: string, d: AppointmentData): string
  {
    Render(BookingTemplate(), url, InformationBlock(d))
  }

  /** Where the block starts in the text for `url`. */
  function BlockStart(tpl: Template, url: string): nat
  {
    |tpl.goalLead| + |url| + |tpl.informationHeader|
  }

  /** The text between the fixed parts around the block, if `t` has them for `url`. */
  function RecoverBlock(tpl: Template, url: string, t: string): Option<string>
  {
    var head := tpl.goalLead + url + tpl.informationHeader;
    var tail := tpl.instructionsHeader + url + tpl.closing;
    if |t| < |head| + |tail| || t[..|head|] != head || t[|t| - |tail|..] != tail then None
    else Some(t[|head|..|t| - |tail|])
  }

  /**
   * A reader of booking task texts for a known URL: it checks the template
   * around the block, reads the block as JSON and validates it as an
   * `AppointmentData`.
   */
  function RecoverData(url: string, t: string): Option<AppointmentData>
  {
    match RecoverBlock(BookingTemplate(), url, t)
    case None => None
    case Some(block) =>
      match JsonText.ParseObject(block)
      case None => None
      case Some(fs) => FromFields(fs)
  }

  // ---------------------------------------------------------------- occurrences

  /** `pat` occurs in `t` starting at position `at`. */
  predicate Occurs(pat: string, t: string, at: int)
  {
    0 <= at && at + |pat| <= |t| && t[at..at + |pat|] == pat
  }

  lemma OccursLeft(pat: string, x: string, y: string, at: int)
    requires Occurs(pat, x, at)
    ensures Occurs(pat, x + y, at)
  {
    assert (x + y)[at..at + |pat|] == x[at..at + |pat|];
  }

  lemma OccursRight(pat: string, x: string, y: string, at: int)
    requires Occurs(pat, y, at)
    ensures Occurs(pat, x + y, |x| + at)
  {
    assert (x + y)[|x| + at..|x| + at + |pat|] == y[at..at + |pat|];
  }

  lemma OccursWithin(pat: string, q: string, t: string, i: int, j: int)
    requires Occurs(pat, q, i) && Occurs(q, t, j)
    ensures Occurs(pat, t, j + i)
  {
    forall k | 0 <= k < |pat| ensures t[j + i + k] == pat[k] {
      assert pat[k] == q[i..i + |pat|][k] == q[i + k];
      assert q[i + k] == t[j..j + |q|][i + k];
    }
    assert t[j + i..j + i + |pat|] == pat;
  }

  lemma OccursWhole(x: string)
    ensures Occurs(x, x, 0)
  {
    assert x[0..|x|] == x;
  }

  // ---------------------------------------------------------------- properties

  /** `x + y + z` holds `y` right after `x`. */
  lemma OccursMiddle(x: string, y: string, z: string)
    ensures Occurs(y, x + y + z, |x|)
  {
    OccursWhole(y);
    OccursRight(y, x, y, 0);
    OccursLeft(y, x + y, z, |x|);
  }

  /** The rendered text, cut at the block. */
  lemma RenderAroundBlock(tpl: Template, url: string, block: string)
    ensures Render(tpl, url, block) ==
            (tpl.goalLead + url + tpl.informationHeader) + block + (tpl.instructionsHeader + url + tpl.closing)
  {
  }

  /** The rendered text, cut at the goal sentence's URL. */
  lemma RenderAroundGoal(tpl: Template, url: string, block: string)
    ensures Render(tpl, url, block) ==
            [] + (tpl.goalLead + url) + (tpl.informationHeader + block + tpl.instructionsHeader + url + tpl.closing)
  {
  }

  /** The rendered text, cut at instruction 1's URL. */
  lemma RenderAroundNavigate(tpl: Template, url: string, block: string)
    ensures Render(tpl, url, block) ==
            (tpl.goalLead + url + tpl.informationHeader + block) + (tpl.instructionsHeader + url) + tpl.closing
  {
  }

  lemma RenderLayout(tpl: Template, url: string, block: string)
    ensures Occurs(tpl.goalLead + url, Render(tpl, url, block), 0)
    ensures Occurs(block, Render(tpl, url, block), BlockStart(tpl, url))
    ensures Occurs(tpl.instructionsHeader + url, Render(tpl, url, block), BlockStart(tpl, url) + |block|)
  {
    RenderAroundGoal(tpl, url, block);
    OccursMiddle([], tpl.goalLead + url, tpl.informationHeader + block + tpl.instructionsHeader + url + tpl.closing);
    RenderAroundBlock(tpl, url, block);
    OccursMiddle(tpl.goalLead + url + tpl.informationHeader, block, tpl.instructionsHeader + url + tpl.closing);
    RenderAroundNavigate(tpl, url, block);
    OccursMiddle(tpl.goalLead + url + tpl.informationHeader + block, tpl.instructionsHeader + url, tpl.closing);
  }

  /** With a template whose goal sentence and instruction 1 lead up to the URL, both name it. */
  lemma RenderNamesUrlTwice(tpl: Template, url: string, block: string)
    requires tpl.goalLead == Indent + GoalSentence && tpl.instructionsHeader == InstructionsTitle + NavigateStep
    ensures Occurs(GoalSentence + url, Render(tpl, url, block), |Indent|)
    ensures Occurs(NavigateStep + url, Render(tpl, url, block), BlockStart(tpl, url) + |block| + |InstructionsTitle|)
  {
    var t := Render(tpl, url, block);
    RenderLayout(tpl, url, block);
    var g := tpl.goalLead + url;
    assert g == Indent + (GoalSentence + url) + [];
    OccursMiddle(Indent, GoalSentence + url, []);
    OccursWithin(GoalSentence + url, g, t, |Indent|, 0);
    var n := tpl.instructionsHeader + url;
    assert n == InstructionsTitle + (NavigateStep + url) + [];
    OccursMiddle(InstructionsTitle, NavigateStep + url, []);
    OccursWithin(NavigateStep + url, n, t, |InstructionsTitle|, BlockStart(tpl, url) + |block|);
  }

  /**
   * In the booking text the goal sentence and instruction 1 both name the URL,
   * and the JSON block sits between them at a position fixed by the URL alone.
   */
  lemma TaskNamesUrlTwice(url: string, d: AppointmentData)
    ensures Occurs(GoalSentence + url, Task(url, d), |Indent|)
    ensures Occurs(InformationBlock(d), Task(url, d), BlockStart(BookingTemplate(), url))
    ensures Occurs(NavigateStep + url, Task(url, d), BlockStart(BookingTemplate(), url) + |InformationBlock(d)| + |InstructionsTitle|)
  {
    RenderLayout(BookingTemplate(), url, InformationBlock(d));
    RenderNamesUrlTwice(BookingTemplate(), url, InformationBlock(d));
  }

  lemma RecoverRenderedBlock(tpl: Template, url: string, block: string)
    ensures RecoverBlock(tpl, url, Render(tpl, url, block)) == Some(block)
  {
    var t := Render(tpl, url, block);
    var head := tpl.goalLead + url + tpl.informationHeader;
    var tail := tpl.instructionsHeader + url + tpl.closing;
    assert t == head + block + tail;
    assert t[..|head|] == head;
    assert t[|t| - |tail|..] == tail;
    assert t[|head|..|t| - |tail|] == block;
  }

  /** Reading the task text for its URL gives the appointment record back. */
  lemma TaskRoundTrip(url: string, d: AppointmentData)
    ensures RecoverData(url, Task(url, d)) == Some(d)
  {
    RecoverRenderedBlock(BookingTemplate(), url, InformationBlock(d));
    JsonText.ObjectRoundTrip(PresentFields(d));
    FromFieldsRoundTrip(d);
  }

  /** For one URL, different records always give different task texts. */
  lemma TaskInjective(url: string, d: AppointmentData, e: AppointmentData)
    ensures Task(url, d) == Task(url, e) <==> d == e
  {
    TaskRoundTrip(url, d);
    TaskRoundTrip(url, e);
  }

  /**
   * Read as JSON, the block holds exactly the set fields: every field name is
   * bound to that field's value, an unset field to nothing, and the keys come
   * in declaration order, none twice.
   */
  lemma BlockHoldsExactlySetFields(d: AppointmentData)
    ensures var r := JsonText.ParseObject(InformationBlock(d));
      r.Some? &&
      (forall i :: 0 <= i < |FieldNames| ==> Lookup(r.value, FieldNames[i]) == FieldValues(d)[i]) &&
      (forall a :: 0 <= a < |r.value| ==>
         IndexOf(FieldNames, r.value[a].0) < |FieldNames| &&
         FieldValues(d)[IndexOf(FieldNames, r.value[a].0)] == Some(r.value[a].1)) &&
      (forall a, b :: 0 <= a < b < |r.value| ==> IndexOf(FieldNames, r.value[a].0) < IndexOf(FieldNames, r.value[b].0))
  {
    JsonText.ObjectRoundTrip(PresentFields(d));
    PresentFieldsExact(d);
  }

  /** Where text `a` starts in the joined texts. */
  function JoinedStart(ms: seq<string>, a: nat): nat
    requires a < |ms|
  {
    if a == 0 then 0 else |ms[0]| + 4 + JoinedStart(ms[1..], a - 1)
  }

  lemma {:induction false} JoinedOccurs(ms: seq<string>, a: nat)
    requires a < |ms|
    ensures Occurs(ms[a], JsonText.Joined(ms), JoinedStart(ms, a))
    decreases a
  {
    if |ms| == 1 {
      OccursWhole(ms[0]);
    } else {
      var rest := JsonText.Joined(ms[1..]);
      assert JsonText.Joined(ms) == ms[0] + (",\n  " + rest);
      if a == 0 {
        OccursMiddle([], ms[0], ",\n  " + rest);
        assert [] + ms[0] + (",\n  " + rest) == JsonText.Joined(ms);
      } else {
        JoinedOccurs(ms[1..], a - 1);
        assert ms[1..][a - 1] == ms[a];
        OccursRight(ms[a], ms[0] + ",\n  ", rest, JoinedStart(ms[1..], a - 1));
        assert ms[0] + ",\n  " + rest == JsonText.Joined(ms);
      }
    }
  }

  lemma {:induction false} MemberTextAt(fs: Pairs, a: nat)
    requires a < |fs|
    ensures JsonText.MemberTexts(fs)[a] == JsonText.Member(fs[a])
    decreases a
  {
    if a > 0 {
      MemberTextAt(fs[1..], a - 1);
    }
  }

  lemma JoinedInObject(fs: Pairs, a: nat)
    requires a < |fs|
    ensures Occurs(JsonText.MemberTexts(fs)[a], JsonText.Object(fs), 4 + JoinedStart(JsonText.MemberTexts(fs), a))
  {
    var ms := JsonText.MemberTexts(fs);
    JoinedOccurs(ms, a);
    var body := JsonText.Joined(ms);
    assert JsonText.Object(fs) == "{\n  " + body + "\n}";
    OccursRight(ms[a], "{\n  ", body, JoinedStart(ms, a));
    OccursLeft(ms[a], "{\n  " + body, "\n}", 4 + JoinedStart(ms, a));
  }

  /** Each member of a written object occurs in it, after the opening line. */
  lemma MemberInObject(fs: Pairs, a: nat)
    requires a < |fs|
    ensures Occurs(JsonText.Member(fs[a]), JsonText.Object(fs), 4 + JoinedStart(JsonText.MemberTexts(fs), a))
  {
    JoinedInObject(fs, a);
    MemberTextAt(fs, a);
  }

  /** A set field is an item of the dump. */
  lemma SetFieldIsItem(d: AppointmentData, i: nat) returns (a: nat)
    requires i < |FieldNames| && FieldValues(d)[i].Some?
    ensures a < |PresentFields(d)| && PresentFields(d)[a] == (FieldNames[i], FieldValues(d)[i].value)
  {
    var fs := PresentFields(d);
    PresentFieldsExact(d);
    FieldNamesDistinct();
    if FieldNames[i] !in Keys(fs) {
      LookupNeedsKey(fs, FieldNames[i]);
    }
    a := KeyIndex(fs, FieldNames[i]);
    assert IndexOf(FieldNames, fs[a].0) == i;
  }

  /** Whatever occurs in the block occurs in the rendered text, shifted by the block's start. */
  lemma InBlockInRender(tpl: Template, url: string, block: string, pat: string, k: int)
    requires Occurs(pat, block, k)
    ensures Occurs(pat, Render(tpl, url, block), BlockStart(tpl, url) + k)
  {
    RenderLayout(tpl, url, block);
    OccursWithin(pat, block, Render(tpl, url, block), k, BlockStart(tpl, url));
  }

  /** An item of the pairs occurs, as a member, in any text rendered around their object. */
  lemma PairInRender(tpl: Template, url: string, fs: Pairs, a: nat, p: (string, string)) returns (at: nat)
    requires a < |fs| && fs[a] == p
    ensures Occurs(JsonText.Member(p), Render(tpl, url, JsonText.Object(fs)), at)
  {
    var k := 4 + JoinedStart(JsonText.MemberTexts(fs), a);
    MemberInObject(fs, a);
    InBlockInRender(tpl, url, JsonText.Object(fs), JsonText.Member(p), k);
    at := BlockStart(tpl, url) + k;
  }

  lemma SetFieldInRender(tpl: Template, url: string, d: AppointmentData, i: nat) returns (at: nat)
    requires i < |FieldNames| && FieldValues(d)[i].Some?
    ensures Occurs(JsonText.Member((FieldNames[i], FieldValues(d)[i].value)), Render(tpl, url, InformationBlock(d)), at)
  {
    var a := SetFieldIsItem(d, i);
    at := PairInRender(tpl, url, PresentFields(d), a, (FieldNames[i], FieldValues(d)[i].value));
  }

  /** A set field appears in the task text as its JSON member: quoted key, then quoted, escaped value. */
  lemma SetFieldAppears(url: string, d: AppointmentData, i: nat) returns (at: nat)
    requires i < |FieldNames| && FieldValues(d)[i].Some?
    ensures Occurs(JsonText.Member((FieldNames[i], FieldValues(d)[i].value)), Task(url, d), at)
  {
    at := SetFieldInRender(BookingTemplate(), url, d, i);
  }

  /** A plain value stands verbatim in its member, right after the key and the opening quote. */
  lemma PlainValueInMember(k: string, v: string)
    requires JsonText.IsPlain(v)
    ensures Occurs(v, JsonText.Member((k, v)), |JsonText.Quote(k)| + 3)
  {
    JsonText.PlainEscapesToItself(v);
    assert JsonText.Member((k, v)) == (JsonText.Quote(k) + ": \"") + v + "\"";
    OccursMiddle(JsonText.Quote(k) + ": \"", v, "\"");
  }

  /**
   * A set field whose value is printable ASCII without quote or backslash
   * appears verbatim in the task text.
   */
  lemma SetPlainValueAppears(url: string, d: AppointmentData, i: nat)
    requires i < |FieldNames| && FieldValues(d)[i].Some? && JsonText.IsPlain(FieldValues(d)[i].value)
    ensures exists at :: Occurs(FieldValues(d)[i].value, Task(url, d), at)
  {
    var v := FieldValues(d)[i].value;
    var at := SetFieldAppears(url, d, i);
    PlainValueInMember(FieldNames[i], v);
    OccursWithin(v, JsonText.Member((FieldNames[i], v)), Task(url, d), |JsonText.Quote(FieldNames[i])| + 3, at);
  }

  /** Whatever occurs in the closing part occurs in the rendered text, that far before its end. */
  lemma InClosingInRender(tpl: Template, url: string, block: string, pat: string, k: int)
    requires Occurs(pat, tpl.closing, k)
    ensures Occurs(pat, Render(tpl, url, block), |Render(tpl, url, block)| - |tpl.closing| + k)
  {
    var front := tpl.goalLead + url + tpl.informationHeader + block + tpl.instructionsHeader + url;
    assert Render(tpl, url, block) == front + tpl.closing;
    OccursRight(pat, front, tpl.closing, k);
  }

  lemma Regroup(a: string, b: string, u: string, v: string, w: string, c: string, e: string)
    ensures a + b + (u + v + w) + c + e == (a + b + u) + v + (w + c + e)
  {
  }

  /** A text the closing part is built around occurs in every rendered text. */
  lemma ClosingPartInRender(tpl: Template, url: string, block: string, x: string, pat: string, y: string)
    requires tpl.closing == x + pat + y
    ensures Occurs(pat, Render(tpl, url, block), |Render(tpl, url, block)| - |tpl.closing| + |x|)
  {
    OccursMiddle(x, pat, y);
    InClosingInRender(tpl, url, block, pat, |x|);
  }

  /** The closing part, regrouped around the `vehicle_vin` key. */
  lemma ClosingAroundVin()
    ensures Closing == (RemainingSteps + Guidelines + TipsUpToVin) + "vehicle_vin" + (TipsAfterVin + SuccessCriteria + "\n    ")
  {
    Regroup(RemainingSteps, Guidelines, TipsUpToVin, "vehicle_vin", TipsAfterVin, SuccessCriteria, "\n    ");
  }

  lemma VinKeyInBookingRender(url: string, block: string)
    ensures exists at :: Occurs("vehicle_vin", Render(BookingTemplate(), url, block), at)
  {
    ClosingAroundVin();
    ClosingPartInRender(BookingTemplate(), url, block, RemainingSteps + Guidelines + TipsUpToVin, "vehicle_vin",
                        TipsAfterVin + SuccessCriteria + "\n    ");
  }

  /**
   * The fixed template always names the `vehicle_vin` key, in the field
   * mapping tips, whether or not the record sets the VIN.
   */
  lemma VinKeyAlwaysNamed(url: string, d: AppointmentData)
    ensures exists at :: Occurs("vehicle_vin", Task(url, d), at)
  {
    var b := InformationBlock(d);
    VinKeyInBookingRender(url, b);
    var at :| Occurs("vehicle_vin", Render(BookingTemplate(), url, b), at);
    assert Task(url, d) == Render(BookingTemplate(), url, b);
    assert Occurs("vehicle_vin", Task(url, d), at);
  }
}
