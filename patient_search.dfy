/** The clinic app's mock patient search endpoint (`/api/patients`): a GET with a
    non-empty string `q` returns, in list order, the fixed patients whose name or id
    contains `q`, all three lower-cased; a GET without such a `q` returns the empty list;
    any other method gets 405. */
module PatientSearch {
  import opened Text

  datatype Patient = Patient(id: string, name: string, age: nat, gender: string, condition: string)

  const MockPatients: seq<Patient> := [
    Patient("PAT001", "Amit Sharma", 45, "Male", "Hypertension"),
    Patient("PAT002", "Priya Patel", 32, "Female", "Diabetes"),
    Patient("PAT003", "Rajesh Kumar", 58, "Male", "Arthritis"),
    Patient("PAT004", "Sunita Reddy", 41, "Female", "Asthma")]

  /** `req.query.q`: absent, one string, or an array when the parameter is repeated. */
  datatype QueryParam = Absent | One(value: string) | Many(values: seq<string>)

  datatype ApiReply =
    | Listed(patients: seq<Patient>)   // 200
    | MethodNotAllowed                 // 405, { error: 'Method not allowed' }

  predicate Matches(p: Patient, q: string) {
    Contains(Lower(p.name), Lower(q)) || Contains(Lower(p.id), Lower(q))
  }

  /** `patients.filter(p => matches)`: exactly the matching patients, in list order. */
  function Filter(patients: seq<Patient>, q: string): (r: seq<Patient>)
    ensures forall p :: p in r <==> p in patients && Matches(p, q)
    ensures IsSubsequence(r, patients)
  {
    if patients == [] then []
    else
      var rest := Filter(patients[1..], q);
      assert forall p :: p in patients <==> p == patients[0] || p in patients[1..];
      if Matches(patients[0], q) then [patients[0]] + rest
      else
        assert rest == [] || IsSubsequence(rest, patients[1..]);
        rest
  }

  /** The handler. */
  function Handle(verb: string, q: QueryParam): (reply: ApiReply)
    ensures reply.MethodNotAllowed? <==> verb != "GET"
    ensures verb == "GET" && (q.Absent? || q.Many? || q == One("")) ==> reply == Listed([])
    ensures verb == "GET" && q.One? && q.value != "" ==>
      reply.Listed? && IsSubsequence(reply.patients, MockPatients)
      && forall p :: p in reply.patients <==> p in MockPatients && Matches(p, q.value)
  {
    if verb == "GET" then
      match q
      case One(s) => if s == "" then Listed([]) else Listed(Filter(MockPatients, s))
      case _ => Listed([])
    else MethodNotAllowed
  }

  /** A longer query never finds more: when `q1` occurs in `q2`, the patients found for
      `q2` are a subsequence of those found for `q1`. */
  lemma {:induction false} Narrowing(patients: seq<Patient>, q1: string, q2: string)
    requires Contains(q2, q1)
    ensures IsSubsequence(Filter(patients, q2), Filter(patients, q1))
    decreases |patients|
  {
    if patients != [] {
      var p := patients[0];
      Narrowing(patients[1..], q1, q2);
      var f1 := Filter(patients, q1);
      var f2 := Filter(patients, q2);
      if Matches(p, q2) {
        LowerKeepsContains(q2, q1);
        if Contains(Lower(p.name), Lower(q2)) {
          ContainsTransitive(Lower(q1), Lower(q2), Lower(p.name));
        } else {
          ContainsTransitive(Lower(q1), Lower(q2), Lower(p.id));
        }
        assert f1 == [p] + Filter(patients[1..], q1) && f2 == [p] + Filter(patients[1..], q2);
        assert f2[1..] == Filter(patients[1..], q2) && f1[1..] == Filter(patients[1..], q1);
      } else if Matches(p, q1) {
        assert f1 == [p] + Filter(patients[1..], q1) && f1[1..] == Filter(patients[1..], q1);
        if f2 != [] {
          SubsequenceOfTail(f2, f1);
        }
      }
    }
  }

  /** A list whose every patient matches passes the filter whole. */
  lemma {:induction false} FilterKeepsAll(patients: seq<Patient>, q: string)
    requires forall i :: 0 <= i < |patients| ==> Matches(patients[i], q)
    ensures Filter(patients, q) == patients
    decreases |patients|
  {
    if patients != [] {
      FilterKeepsAll(patients[1..], q);
    }
  }

  /** An id that starts with `PAT` matches the query `pat`. */
  lemma IdPrefixMatches(p: Patient)
    requires |p.id| >= 3 && p.id[..3] == "PAT"
    ensures Matches(p, "pat")
  {
    assert Lower("pat") == "pat";
    assert Lower(p.id)[..3] == "pat";
  }

  /** Every mock patient's id contains `PAT`, in any case. */
  lemma EveryIdMatches()
    ensures Handle("GET", One("pat")) == Listed(MockPatients)
  {
    var ps := MockPatients;
    IdPrefixMatches(ps[0]);
    IdPrefixMatches(ps[1]);
    IdPrefixMatches(ps[2]);
    IdPrefixMatches(ps[3]);
    FilterKeepsAll(ps, "pat");
  }
}
