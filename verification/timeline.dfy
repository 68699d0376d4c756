/**
 * The milestone builder of the timeline page (`handleGenerate`): the campaign
 * type picks a list of phases with month buffers, an Impact campaign that starts
 * in September or October gets a deadline alert in front, and every phase
 * becomes a numbered milestone dated `buffer` months after the start.
 */
module Timeline {
  import opened Wrappers
  import opened Strings
  import opened Records
  import opened Language
  import opened Gravity

  /** What the page reads of `new Date(startDate)`: `getFullYear()` and `getMonth()`. */
  datatype Start = Start(year: int, month: MonthIndex)

  /** One entry of `phases`, without its `desc` prose. */
  datatype Phase = Phase(buffer: nat, title: string)

  /** The launch plan: one phase per month. */
  function ImpactPhases(l: Lang): seq<Phase> {
    match l
    case Es => [Phase(0, "Fase 1: Activación 'Trend Velocity'"), Phase(1, "Fase 2: Validación Técnica (Webinar)"),
                Phase(2, "Fase 3: Conversión (Sampling)")]
    case Ca => [Phase(0, "Fase 1: Activació 'Trend Velocity'"), Phase(1, "Fase 2: Validació Tècnica (Webinar)"),
                Phase(2, "Fase 3: Conversió (Sampling)")]
    case En => [Phase(0, "Phase 1: 'Trend Velocity' Activation"), Phase(1, "Phase 2: Technical Validation (Webinar)"),
                Phase(2, "Phase 3: Conversion (Sampling)")]
  }

  /** The retention plan: one phase per quarter. */
  function MaintenancePhases(l: Lang): seq<Phase> {
    match l
    case Es => [Phase(0, "Q1: Refuerzo de Credenciales"), Phase(4, "Q2: Casos de Éxito"),
                Phase(8, "Q3: Innovación Incremental"), Phase(11, "Q4: Renovación de Acuerdos")]
    case Ca => [Phase(0, "Q1: Reforç de Credencials"), Phase(4, "Q2: Casos d'Èxit"),
                Phase(8, "Q3: Innovació Incremental"), Phase(11, "Q4: Renovació d'Acords")]
    case En => [Phase(0, "Q1: Credential Reinforcement"), Phase(4, "Q2: Success Stories"),
                Phase(8, "Q3: Incremental Innovation"), Phase(11, "Q4: Agreement Renewal")]
  }

  /** `campaignType === "Impact"` picks the launch plan; every other value the retention plan. */
  function PhasesFor(campaignType: string, l: Lang): seq<Phase> {
    if campaignType == "Impact" then ImpactPhases(l) else MaintenancePhases(l)
  }

  function Buffers(phases: seq<Phase>): (r: seq<nat>)
    ensures |r| == |phases| && forall k :: 0 <= k < |r| ==> r[k] == phases[k].buffer
  {
    seq(|phases|, k requires 0 <= k < |phases| => phases[k].buffer)
  }

  /** Months counted from year 0, the scale on which `setMonth(getMonth() + n)` adds. */
  function MonthNumber(year: int, month: MonthIndex): int {
    year * 12 + month
  }

  /** `addMonths(start, months)`: the calendar month `months` after the start's. */
  function AddMonths(start: Start, months: nat): (d: MilestoneDate)
    ensures d.MonthOf?
    ensures MonthNumber(d.year, d.month) == MonthNumber(start.year, start.month) + months
  {
    MonthOf(start.year + (start.month + months) / 12, (start.month + months) % 12)
  }

  /** The word before a phase number. */
  function PhaseWord(l: Lang): string {
    match l
    case Es => "Fase"
    case Ca => "Fase"
    case En => "Phase"
  }

  function PhaseLabel(l: Lang, n: nat): string {
    PhaseWord(l) + " " + NatToString(n)
  }

  /** The deadline gate: Impact only, start month September (8) or October (9). */
  predicate AlertDue(campaignType: string, start: Start) {
    campaignType == "Impact" && 8 <= start.month <= 9
  }

  function WarningTitle(l: Lang): string {
    match l
    case Es => "⚠️ DEADLINE CRÍTICO"
    case Ca => "⚠️ DEADLINE CRÍTIC"
    case En => "⚠️ CRITICAL DEADLINE"
  }

  /** The alert milestone, dated October 28th of the start year. */
  function Alert(l: Lang, start: Start): Milestone {
    Milestone("ALERTA", Fixed(IntToString(start.year) + "-10-28"), WarningTitle(l))
  }

  /** What `forEach` pushes for the phases: numbered from 1, dated by buffer. */
  function PhaseMilestones(l: Lang, start: Start, phases: seq<Phase>): (r: seq<Milestone>)
    ensures |r| == |phases|
  {
    seq(|phases|, k requires 0 <= k < |phases| =>
      Milestone(PhaseLabel(l, k + 1), AddMonths(start, phases[k].buffer), phases[k].title))
  }

  /** The list the page generates: the alert when due, then the phase milestones. */
  function Milestones(l: Lang, campaignType: string, start: Start): seq<Milestone> {
    (if AlertDue(campaignType, start) then [Alert(l, start)] else [])
      + PhaseMilestones(l, start, PhasesFor(campaignType, l))
  }

  /** The Impact branch's choice of `phases` by page language. */
  method ChooseImpactPhases(lang: Lang) returns (phases: seq<Phase>)
    ensures phases == ImpactPhases(lang)
  {
    if lang == Es {
      phases := [Phase(0, "Fase 1: Activación 'Trend Velocity'"), Phase(1, "Fase 2: Validación Técnica (Webinar)"),
                 Phase(2, "Fase 3: Conversión (Sampling)")];
    } else if lang == Ca {
      phases := [Phase(0, "Fase 1: Activació 'Trend Velocity'"), Phase(1, "Fase 2: Validació Tècnica (Webinar)"),
                 Phase(2, "Fase 3: Conversió (Sampling)")];
    } else {
      phases := [Phase(0, "Phase 1: 'Trend Velocity' Activation"), Phase(1, "Phase 2: Technical Validation (Webinar)"),
                 Phase(2, "Phase 3: Conversion (Sampling)")];
    }
  }

  /** The Maintenance branch's choice of `phases` by page language. */
  method ChooseMaintenancePhases(lang: Lang) returns (phases: seq<Phase>)
    ensures phases == MaintenancePhases(lang)
  {
    if lang == Es {
      phases := [Phase(0, "Q1: Refuerzo de Credenciales"), Phase(4, "Q2: Casos de Éxito"),
                 Phase(8, "Q3: Innovación Incremental"), Phase(11, "Q4: Renovación de Acuerdos")];
    } else if lang == Ca {
      phases := [Phase(0, "Q1: Reforç de Credencials"), Phase(4, "Q2: Casos d'Èxit"),
                 Phase(8, "Q3: Innovació Incremental"), Phase(11, "Q4: Renovació d'Acords")];
    } else {
      phases := [Phase(0, "Q1: Credential Reinforcement"), Phase(4, "Q2: Success Stories"),
                 Phase(8, "Q3: Incremental Innovation"), Phase(11, "Q4: Agreement Renewal")];
    }
  }

  /** The `forEach` over `phases`: one push per phase, numbered from 1. */
  method PushPhases(lang: Lang, start: Start, phases: seq<Phase>, before: seq<Milestone>) returns (generated: seq<Milestone>)
    ensures generated == before + PhaseMilestones(lang, start, phases)
  {
    generated := before;
    var idx := 0;
    while idx < |phases|
      invariant 0 <= idx <= |phases|
      invariant generated == before + PhaseMilestones(lang, start, phases[..idx])
    {
      var p := phases[idx];
      var word := if lang == Es then "Fase" else if lang == Ca then "Fase" else "Phase";
      generated := generated + [Milestone(word + " " + NatToString(idx + 1), AddMonths(start, p.buffer), p.title)];
      idx := idx + 1;
      assert PhaseMilestones(lang, start, phases[..idx])
          == PhaseMilestones(lang, start, phases[..idx - 1]) + [PhaseMilestones(lang, start, phases[..idx])[idx - 1]];
    }
    assert phases[..idx] == phases;
  }

  /** `handleGenerate` once its timer fires: `phases` chosen by branch, the alert, then the pushes. */
  method BuildMilestones(lang: Lang, campaignType: string, start: Start) returns (generated: seq<Milestone>)
    ensures generated == Milestones(lang, campaignType, start)
  {
    var startMonth := start.month;
    generated := [];
    var phases: seq<Phase>;
    if campaignType == "Impact" {
      phases := ChooseImpactPhases(lang);
      if startMonth >= 8 && startMonth <= 9 {
        var warningTitle := if lang == Es then "⚠️ DEADLINE CRÍTICO" else if lang == Ca then "⚠️ DEADLINE CRÍTIC" else "⚠️ CRITICAL DEADLINE";
        generated := generated + [Milestone("ALERTA", Fixed(IntToString(start.year) + "-10-28"), warningTitle)];
      }
    } else {
      phases := ChooseMaintenancePhases(lang);
    }
    generated := PushPhases(lang, start, phases, generated);
  }

  /** The page's own state; the start date is handed over already parsed. */
  class TimelinePage {
    var campaignType: string
    var loading: bool
    var milestones: seq<Milestone>

    constructor ()
      ensures campaignType == "Impact" && !loading && milestones == []
    {
      campaignType := "Impact";
      loading := false;
      milestones := [];
    }

    /** `handleGenerate`: the same list goes to `setMilestones` and to `completeStep("timeline", …)`. */
    method HandleGenerate(lang: Lang, start: Start, wizard: GravityProvider<Payload>)
      requires wizard.Valid()
      modifies this, wizard
      ensures milestones == Milestones(lang, campaignType, start)
      ensures wizard.Valid() && wizard.steps == CompletedSteps(old(wizard.steps), "timeline", Some(MilestoneList(milestones)))
      ensures wizard.seed == old(wizard.seed) && wizard.budget == old(wizard.budget) && wizard.market == old(wizard.market)
      ensures campaignType == old(campaignType) && !loading
    {
      loading := true;
      var generated := BuildMilestones(lang, campaignType, start);
      milestones := generated;
      wizard.CompleteStep("timeline", Some(MilestoneList(generated)));
      loading := false;
    }
  }

  // ---------------------------------------------------------------------------
  // Properties of the generated list
  // ---------------------------------------------------------------------------

  /** Impact phases sit 0, 1 and 2 months after the start; Maintenance phases 0, 4, 8 and 11. */
  lemma PhaseOffsets(campaignType: string, l: Lang)
    ensures Buffers(PhasesFor(campaignType, l)) == if campaignType == "Impact" then [0, 1, 2] else [0, 4, 8, 11]
  {
  }

  /** Three or four milestones for Impact (four with the alert), always four for Maintenance. */
  lemma MilestoneCount(l: Lang, campaignType: string, start: Start)
    ensures |Milestones(l, campaignType, start)|
         == if campaignType != "Impact" then 4 else if 8 <= start.month <= 9 then 4 else 3
  {
    PhaseOffsets(campaignType, l);
    assert |PhasesFor(campaignType, l)| == |Buffers(PhasesFor(campaignType, l))|;
  }

  /** The alert is there exactly when due, and then it comes first. */
  lemma AlertOnlyWhenDue(l: Lang, campaignType: string, start: Start)
    ensures var ms := Milestones(l, campaignType, start);
            && (AlertDue(campaignType, start) ==> ms[0] == Alert(l, start))
            && ((exists k :: 0 <= k < |ms| && ms[k].phase == "ALERTA") <==> AlertDue(campaignType, start))
  {
    var before := if AlertDue(campaignType, start) then [Alert(l, start)] else [];
    var ps := PhaseMilestones(l, start, PhasesFor(campaignType, l));
    NoAlertAmongPhases(l, start, PhasesFor(campaignType, l));
    var ms := before + ps;
    forall k | |before| <= k < |ms| ensures ms[k].phase != "ALERTA" {
      assert ms[k] == ps[k - |before|];
    }
    if AlertDue(campaignType, start) {
      assert ms[0].phase == "ALERTA";
    }
  }

  /** No phase milestone is labelled "ALERTA": their labels start with "F" or "P". */
  lemma NoAlertAmongPhases(l: Lang, start: Start, phases: seq<Phase>)
    ensures forall k :: 0 <= k < |phases| ==> PhaseMilestones(l, start, phases)[k].phase != "ALERTA"
  {
    forall k | 0 <= k < |phases| ensures PhaseMilestones(l, start, phases)[k].phase != "ALERTA" {
      var name := PhaseLabel(l, k + 1);
      assert name[0] == PhaseWord(l)[0] != 'A';
    }
  }

  /** The alert carries phase "ALERTA" and the fixed date "<year>-10-28". */
  lemma AlertDate(l: Lang, campaignType: string, start: Start)
    requires AlertDue(campaignType, start)
    ensures Milestones(l, campaignType, start)[0].phase == "ALERTA"
    ensures Milestones(l, campaignType, start)[0].date == Fixed(IntToString(start.year) + "-10-28")
  {
  }

  /** Entry k of the phase list sits at position k after whatever was pushed before it. */
  lemma PhaseEntry(l: Lang, start: Start, before: seq<Milestone>, phases: seq<Phase>, k: nat)
    requires k < |phases|
    ensures (before + PhaseMilestones(l, start, phases))[|before| + k]
         == Milestone(PhaseLabel(l, k + 1), AddMonths(start, phases[k].buffer), phases[k].title)
  {
  }

  /** Phase k (from 0) is labelled with k + 1 whether or not the alert precedes it, and is dated by its buffer. */
  lemma PhaseNumbering(l: Lang, campaignType: string, start: Start, k: nat)
    requires k < |PhasesFor(campaignType, l)|
    ensures var off := if AlertDue(campaignType, start) then 1 else 0;
            var m := Milestones(l, campaignType, start)[off + k];
            var p := PhasesFor(campaignType, l)[k];
            && m.phase == PhaseWord(l) + " " + NatToString(k + 1)
            && m.title == p.title
            && m.date.MonthOf?
            && MonthNumber(m.date.year, m.date.month) == MonthNumber(start.year, start.month) + p.buffer
  {
    var before := if AlertDue(campaignType, start) then [Alert(l, start)] else [];
    PhaseEntry(l, start, before, PhasesFor(campaignType, l), k);
  }

  /** The phase milestones run forward in time: each is dated no earlier than the one before. */
  lemma PhasesInOrder(l: Lang, campaignType: string, start: Start, i: nat, j: nat)
    requires i < j < |PhasesFor(campaignType, l)|
    ensures var off := if AlertDue(campaignType, start) then 1 else 0;
            var a, b := Milestones(l, campaignType, start)[off + i].date, Milestones(l, campaignType, start)[off + j].date;
            a.MonthOf? && b.MonthOf? && MonthNumber(a.year, a.month) < MonthNumber(b.year, b.month)
  {
    PhaseNumbering(l, campaignType, start, i);
    PhaseNumbering(l, campaignType, start, j);
    BuffersIncrease(campaignType, l, i, j);
  }

  lemma BuffersIncrease(campaignType: string, l: Lang, i: nat, j: nat)
    requires i < j < |PhasesFor(campaignType, l)|
    ensures PhasesFor(campaignType, l)[i].buffer < PhasesFor(campaignType, l)[j].buffer
  {
    PhaseOffsets(campaignType, l);
    var b := Buffers(PhasesFor(campaignType, l));
    assert b[i] < b[j];
  }

  /** A September start of an Impact campaign in Spanish, written out. */
  lemma SeptemberLaunch()
    ensures Milestones(Es, "Impact", Start(2025, 8))
         == [Milestone("ALERTA", Fixed(IntToString(2025) + "-10-28"), "⚠️ DEADLINE CRÍTICO"),
             Milestone("Fase 1", MonthOf(2025, 8), "Fase 1: Activación 'Trend Velocity'"),
             Milestone("Fase 2", MonthOf(2025, 9), "Fase 2: Validación Técnica (Webinar)"),
             Milestone("Fase 3", MonthOf(2025, 10), "Fase 3: Conversión (Sampling)")]
  {
    assert NatToString(1) == "1" && NatToString(2) == "2" && NatToString(3) == "3";
    var ps := PhaseMilestones(Es, Start(2025, 8), ImpactPhases(Es));
    assert ps[0] == Milestone("Fase 1", MonthOf(2025, 8), "Fase 1: Activación 'Trend Velocity'");
    assert ps[1] == Milestone("Fase 2", MonthOf(2025, 9), "Fase 2: Validación Técnica (Webinar)");
    assert ps[2] == Milestone("Fase 3", MonthOf(2025, 10), "Fase 3: Conversión (Sampling)");
  }

  /** A Maintenance plan started in March reaches into February of the next year. */
  lemma MaintenanceWrapsYear()
    ensures Milestones(En, "Maintenance", Start(2025, 2))[3].date == MonthOf(2026, 1)
  {
  }
}
