/** The scanning centre's dashboard page: the report list seeded on mount, and the
    prepend that records a successful upload with a list-derived id and the status
    `Uploaded`. */
module ScanningDashboard {
  import opened Text
  import opened StatusMonitor

  const Seeds: seq<Report> := [
    map["id" := "rep-001", "patientName" := "Jane Doe", "scanType" := "MRI - Brain", "status" := ReadyToShare],
    map["id" := "rep-002", "patientName" := "John Smith", "scanType" := "CT Scan - Chest", "status" := AiProcessing],
    map["id" := "rep-003", "patientName" := "Alice Brown", "scanType" := "X-Ray - Left Arm", "status" := Uploaded]]

  /** `` `rep-00${n}` ``: the digits of `n` after a fixed `rep-00`, not padded to a width. */
  function ReportId(n: nat): (id: string)
    ensures |id| >= 7 && id[..6] == "rep-00"
    ensures AllDigits(id[6..]) && DigitsValue(id[6..]) == n
  {
    var id := "rep-00" + NatToString(n);
    assert id[6..] == NatToString(n);
    NatToStringValue(n);
    id
  }

  /** `[{ ...newReport, id, status: 'Uploaded' }, ...reports]`. */
  function WithUpload(reports: seq<Report>, newReport: Report): (r: seq<Report>)
    ensures |r| == |reports| + 1 && r[1..] == reports
    ensures r[0].Keys == newReport.Keys + {"id", "status"}
    ensures r[0]["id"] == ReportId(|reports| + 1) && r[0]["status"] == Uploaded
    ensures forall key :: key in newReport && key != "id" && key != "status" ==> r[0][key] == newReport[key]
  {
    [newReport["id" := ReportId(|reports| + 1)]["status" := Uploaded]] + reports
  }

  lemma ReportIdInjective(m: nat, n: nat)
    requires ReportId(m) == ReportId(n)
    ensures m == n
  {
    assert ReportId(m)[6..] == NatToString(m) && ReportId(n)[6..] == NatToString(n);
    NatToStringInjective(m, n);
  }

  /** Every report's id is `rep-00` and a number between 1 and the length of the list,
      each number used once: `nums` lists those numbers. */
  ghost predicate NumberedBy(reports: seq<Report>, nums: seq<nat>) {
    && |nums| == |reports|
    && (forall j :: 0 <= j < |reports| ==> "id" in reports[j] && reports[j]["id"] == ReportId(nums[j]))
    && (forall j :: 0 <= j < |nums| ==> 1 <= nums[j] <= |nums|)
    && (forall i, j :: 0 <= i < j < |nums| ==> nums[i] != nums[j])
  }

  lemma SeedsNumbered()
    ensures NumberedBy(Seeds, [1, 2, 3])
  {
    assert NatToString(1) == "1" && NatToString(2) == "2" && NatToString(3) == "3";
  }

  /** An upload takes the next number, so the numbering stays one-to-one. */
  lemma UploadNumbered(reports: seq<Report>, nums: seq<nat>, newReport: Report)
    requires NumberedBy(reports, nums)
    ensures NumberedBy(WithUpload(reports, newReport), [|reports| + 1] + nums)
  {
    var r := WithUpload(reports, newReport);
    var ns := [|reports| + 1] + nums;
    forall j | 0 <= j < |r| ensures "id" in r[j] && r[j]["id"] == ReportId(ns[j]) {
      if j > 0 {
        assert r[j] == reports[j - 1] && ns[j] == nums[j - 1];
      }
    }
    forall i, j | 0 <= i < j < |ns| ensures ns[i] != ns[j] {
      if i > 0 {
        assert ns[i] == nums[i - 1] && ns[j] == nums[j - 1];
      } else {
        assert ns[j] == nums[j - 1];
      }
    }
  }

  /** A one-to-one numbering gives pairwise distinct ids. */
  lemma NumberedDistinct(reports: seq<Report>, nums: seq<nat>, i: nat, j: nat)
    requires NumberedBy(reports, nums) && i < j < |reports|
    ensures reports[i]["id"] != reports[j]["id"]
  {
    if reports[i]["id"] == reports[j]["id"] {
      ReportIdInjective(nums[i], nums[j]);
    }
  }

  class Dashboard {
    var reports: seq<Report>

    constructor ()
      ensures reports == []
    {
      reports := [];
    }

    /** The mount effect: the list becomes the three seeded reports. */
    method Seed()
      modifies this
      ensures reports == Seeds
    {
      reports := Seeds;
    }

    /** `handleUploadSuccess`. */
    method UploadSucceeded(newReport: Report)
      modifies this
      ensures reports == WithUpload(old(reports), newReport)
    {
      reports := WithUpload(reports, newReport);
    }
  }

  /** Seeding and then one upload: the new report comes first as `rep-004`, the seeds
      follow unchanged, and all ids differ. */
  method SeedThenUpload(page: Dashboard, newReport: Report)
    modifies page
    ensures |page.reports| == 4 && page.reports[1..] == Seeds
    ensures "id" in page.reports[0] && page.reports[0]["id"] == "rep-004"
    ensures forall i, j :: 0 <= i < j < |page.reports| ==>
      "id" in page.reports[i] && "id" in page.reports[j] && page.reports[i]["id"] != page.reports[j]["id"]
  {
    page.Seed();
    page.UploadSucceeded(newReport);
    var rs := page.reports;
    var nums: seq<nat> := [4, 1, 2, 3];
    SeedsNumbered();
    UploadNumbered(Seeds, [1, 2, 3], newReport);
    assert [|Seeds| + 1] + [1, 2, 3] == nums;
    assert NumberedBy(rs, nums);
    assert rs[0]["id"] == ReportId(4);
    assert NatToString(4) == "4";
    forall i, j | 0 <= i < j < |rs|
      ensures "id" in rs[i] && "id" in rs[j] && rs[i]["id"] != rs[j]["id"]
    {
      NumberedDistinct(rs, nums, i, j);
    }
  }
}
