/** The clinic app's prescription page: the list of prescribed drugs edited by index,
    the payload built from the form, and the form state that submitting and resetting
    change. The clock (`Date.now()` for a new drug's id, `toISOString()` for the payload's
    timestamp) and whether a fetch's reply arrives are parameters. */
module Prescription {
  import opened Options
  import opened Dosage
  import PatientSearch

  /** One prescribed drug as the page keeps it. */
  datatype DrugEntry = DrugEntry(
    id: int, name: string, kind: string, strength: string, frequency: Frequency,
    timingRelation: string, timeOffsetMinutes: int, notes: string)

  const NoSlots := Frequency(false, false, false, false)

  /** The entry `addDrug` appends: blank text fields, no dosage slot, after food, no
      offset, and the clock reading as its id. */
  function NewDrug(now: int): (d: DrugEntry)
    ensures d.id == now && d.name == "" && d.kind == "" && d.strength == "" && d.notes == ""
    ensures forall s: Slot :: !Taken(d.frequency, s)
    ensures d.timingRelation == TimingOptions[0] && d.timeOffsetMinutes == 0
  {
    DrugEntry(now, "", "", "", NoSlots, "After Food", 0, "")
  }

  /** A field after a spread: the patch's value when it holds one, the old one otherwise. */
  predicate Takes<T(==)>(patched: Option<T>, before: T, after: T) {
    (patched.Some? ==> after == patched.value) && (patched.None? ==> after == before)
  }

  /** `{ ...x, ...patch }`: each field the patch holds replaces the entry's, and the id,
      which no patch holds, is kept. */
  function Apply(x: DrugEntry, patch: DrugPatch): (r: DrugEntry)
    ensures r.id == x.id
    ensures Takes(patch.name, x.name, r.name) && Takes(patch.kind, x.kind, r.kind)
    ensures Takes(patch.strength, x.strength, r.strength) && Takes(patch.frequency, x.frequency, r.frequency)
    ensures Takes(patch.timingRelation, x.timingRelation, r.timingRelation)
    ensures Takes(patch.timeOffsetMinutes, x.timeOffsetMinutes, r.timeOffsetMinutes)
    ensures Takes(patch.notes, x.notes, r.notes)
  {
    DrugEntry(x.id, patch.name.GetOr(x.name), patch.kind.GetOr(x.kind), patch.strength.GetOr(x.strength),
      patch.frequency.GetOr(x.frequency), patch.timingRelation.GetOr(x.timingRelation),
      patch.timeOffsetMinutes.GetOr(x.timeOffsetMinutes), patch.notes.GetOr(x.notes))
  }

  /** An empty patch changes nothing, and a patch applied twice is applied once. */
  lemma ApplyLaws(x: DrugEntry, patch: DrugPatch)
    ensures Apply(x, NoChange) == x
    ensures Apply(Apply(x, patch), patch) == Apply(x, patch)
  {
  }

  /** Clicking a dosage slot twice, each time on the entry as the first click left it,
      gives the entry back. */
  lemma ToggleTwiceRestores(x: DrugEntry, s: Slot)
    ensures var y := Apply(x, ToggleFrequency(x.frequency, s));
            Apply(y, ToggleFrequency(y.frequency, s)) == x
  {
    FlipTwice(x.frequency, s);
  }

  /** `addDrug`: one new entry at the end, the others unchanged. */
  function AddDrug(drugs: seq<DrugEntry>, now: int): (r: seq<DrugEntry>)
    ensures |r| == |drugs| + 1 && r[..|drugs|] == drugs && r[|drugs|] == NewDrug(now)
  {
    drugs + [NewDrug(now)]
  }

  /** `updateDrug(i, patch)`: `arr.map((x, idx) => idx === i ? { ...x, ...patch } : x)`. */
  function UpdateDrug(drugs: seq<DrugEntry>, i: int, patch: DrugPatch): (r: seq<DrugEntry>)
    ensures |r| == |drugs|
    ensures forall j :: 0 <= j < |drugs| && j != i ==> r[j] == drugs[j]
    ensures 0 <= i < |drugs| ==> r[i] == Apply(drugs[i], patch)
    ensures !(0 <= i < |drugs|) ==> r == drugs
  {
    seq(|drugs|, j requires 0 <= j < |drugs| => if j == i then Apply(drugs[j], patch) else drugs[j])
  }

  /** `removeDrug(i)`: `arr.filter((_, idx) => idx !== i)`, written as the filter walks
      the list; it deletes exactly index `i`, and an index outside the list deletes
      nothing. */
  function RemoveDrug(drugs: seq<DrugEntry>, i: int): (r: seq<DrugEntry>)
    ensures 0 <= i < |drugs| ==> r == drugs[..i] + drugs[i + 1..]
    ensures !(0 <= i < |drugs|) ==> r == drugs
    decreases |drugs|
  {
    if drugs == [] then []
    else
      var rest := RemoveDrug(drugs[1..], i - 1);
      if i == 0 then rest
      else
        assert 0 < i < |drugs| ==> drugs[..i] + drugs[i + 1..] == [drugs[0]] + (drugs[1..][..i - 1] + drugs[1..][i..]);
        [drugs[0]] + rest
  }

  /** Removing the entry just added gives the list back. */
  lemma RemoveUndoesAdd(drugs: seq<DrugEntry>, now: int)
    ensures RemoveDrug(AddDrug(drugs, now), |drugs|) == drugs
  {
    var added := AddDrug(drugs, now);
    var r := RemoveDrug(added, |drugs|);
    assert r == added[..|drugs|] + added[|drugs| + 1..];
    assert added[..|drugs|] == drugs && added[|drugs| + 1..] == [];
    assert r == drugs + [];
  }

  datatype ClinicTemplate = ClinicTemplate(clinicName: string, doctorName: string, doctorType: string, signatureUrl: string)
  datatype Vitals = Vitals(bp: string, hr: string, temp: string)

  datatype Payload = Payload(
    patientId: string, clinic: ClinicTemplate, vitals: Vitals, diagnosis: string, allergies: string,
    drugs: seq<DrugEntry>, createdAt: string)

  /** `buildPayload`: nothing without a selected patient; otherwise the form's fields
      unchanged, under the selected patient's id. */
  function BuildPayload(selected: Option<PatientSearch.Patient>, clinic: ClinicTemplate, vitals: Vitals,
                        diagnosis: string, allergies: string, drugs: seq<DrugEntry>, createdAt: string): (p: Option<Payload>)
    ensures p.None? <==> selected.None?
    ensures p.Some? ==>
      && p.value.patientId == selected.value.id
      && p.value.clinic == clinic && p.value.vitals == vitals
      && p.value.diagnosis == diagnosis && p.value.allergies == allergies && p.value.drugs == drugs
  {
    match selected
    case None => None
    case Some(patient) => Some(Payload(patient.id, clinic, vitals, diagnosis, allergies, drugs, createdAt))
  }

  /** The page's state, and the requests it has sent. */
  class PrescriptionForm {
    var query: string
    var patients: seq<PatientSearch.Patient>
    var selected: Option<PatientSearch.Patient>
    var clinic: ClinicTemplate
    var vitals: Vitals
    var diagnosis: string
    var allergies: string
    var drugs: seq<DrugEntry>
    /** The queries sent to the patient search endpoint. */
    var searches: seq<string>
    /** The payloads posted to the prescriptions endpoint. */
    var posted: seq<Payload>

    constructor ()
      ensures query == "" && patients == [] && selected == None
      ensures clinic == ClinicTemplate("", "", "", "") && vitals == Vitals("", "", "")
      ensures diagnosis == "" && allergies == "" && drugs == []
      ensures searches == [] && posted == []
    {
      query, patients, selected := "", [], None;
      clinic, vitals := ClinicTemplate("", "", "", ""), Vitals("", "", "");
      diagnosis, allergies, drugs := "", "", [];
      searches, posted := [], [];
    }

    /** Typing in the search box, and the effect that follows: an empty query empties the
        patient list without a request; otherwise the query is sent and, when the reply
        arrives, the list becomes the endpoint's answer. */
    method SetQuery(q: string, replyArrives: bool)
      modifies this
      ensures query == q
      ensures q == "" ==> patients == [] && searches == old(searches)
      ensures q != "" ==> searches == old(searches) + [q]
      ensures q != "" && replyArrives ==> patients == PatientSearch.Handle("GET", PatientSearch.One(q)).patients
      ensures q != "" && !replyArrives ==> patients == old(patients)
      ensures selected == old(selected) && clinic == old(clinic) && vitals == old(vitals)
      ensures diagnosis == old(diagnosis) && allergies == old(allergies) && drugs == old(drugs) && posted == old(posted)
    {
      query := q;
      if q == "" {
        patients := [];
        return;
      }
      searches := searches + [q];
      if replyArrives {
        patients := PatientSearch.Handle("GET", PatientSearch.One(q)).patients;
      }
    }

    /** Clicking a patient of the list selects it. */
    method SelectPatient(k: nat)
      requires k < |patients|
      modifies this
      ensures selected == Some(old(patients)[k])
      ensures query == old(query) && patients == old(patients) && clinic == old(clinic) && vitals == old(vitals)
      ensures diagnosis == old(diagnosis) && allergies == old(allergies) && drugs == old(drugs)
      ensures searches == old(searches) && posted == old(posted)
    {
      selected := Some(patients[k]);
    }

    method AddDrugClicked(now: int)
      modifies this
      ensures drugs == AddDrug(old(drugs), now)
      ensures query == old(query) && patients == old(patients) && selected == old(selected)
      ensures clinic == old(clinic) && vitals == old(vitals) && diagnosis == old(diagnosis) && allergies == old(allergies)
      ensures searches == old(searches) && posted == old(posted)
    {
      drugs := AddDrug(drugs, now);
    }

    method DrugChanged(i: int, patch: DrugPatch)
      modifies this
      ensures drugs == UpdateDrug(old(drugs), i, patch)
      ensures query == old(query) && patients == old(patients) && selected == old(selected)
      ensures clinic == old(clinic) && vitals == old(vitals) && diagnosis == old(diagnosis) && allergies == old(allergies)
      ensures searches == old(searches) && posted == old(posted)
    {
      drugs := UpdateDrug(drugs, i, patch);
    }

    method RemoveClicked(i: int)
      modifies this
      ensures drugs == RemoveDrug(old(drugs), i)
      ensures query == old(query) && patients == old(patients) && selected == old(selected)
      ensures clinic == old(clinic) && vitals == old(vitals) && diagnosis == old(diagnosis) && allergies == old(allergies)
      ensures searches == old(searches) && posted == old(posted)
    {
      drugs := RemoveDrug(drugs, i);
    }

    /** The Reset and Clear Consultation buttons: the drugs, the diagnosis and the
        allergies are emptied; the vitals, the clinic template and the patient stay. */
    method ClearConsultation()
      modifies this
      ensures drugs == [] && diagnosis == "" && allergies == ""
      ensures query == old(query) && patients == old(patients) && selected == old(selected)
      ensures clinic == old(clinic) && vitals == old(vitals)
      ensures searches == old(searches) && posted == old(posted)
    {
      drugs, diagnosis, allergies := [], "", "";
    }

    /** `submit`: without a selected patient nothing is sent and nothing changes;
        otherwise the payload is posted and, once the reply arrives, the consultation is
        cleared as by Reset. */
    method Submit(createdAt: string, replyArrives: bool)
      modifies this
      ensures old(selected).None? ==>
        posted == old(posted) && drugs == old(drugs) && diagnosis == old(diagnosis) && allergies == old(allergies)
      ensures old(selected).Some? ==>
        posted == old(posted) + [BuildPayload(old(selected), old(clinic), old(vitals), old(diagnosis),
                                               old(allergies), old(drugs), createdAt).value]
      ensures old(selected).Some? && replyArrives ==> drugs == [] && diagnosis == "" && allergies == ""
      ensures !replyArrives ==> drugs == old(drugs) && diagnosis == old(diagnosis) && allergies == old(allergies)
      ensures query == old(query) && patients == old(patients) && selected == old(selected)
      ensures clinic == old(clinic) && vitals == old(vitals) && searches == old(searches)
    {
      var payload := BuildPayload(selected, clinic, vitals, diagnosis, allergies, drugs, createdAt);
      if payload.None? {
        return;
      }
      posted := posted + [payload.value];
      if replyArrives {
        drugs, diagnosis, allergies := [], "", "";
      }
    }
  }
}
