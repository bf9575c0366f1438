/** The medical-records page: the records list shown after the search box,
    the category selector and the tab have filtered it, newest first. The
    records are the page's own sample data. */
module RecordsPage {

  import opened Types
  import opened Text
  import opened Seqs

  datatype MedicalRecord = MedicalRecord(
    id: int,
    title: string,
    kind: string,          // the record's `type`
    date: string,          // "YYYY-MM-DD"
    doctor: Option<string>,
    facility: Option<string>,
    notes: Option<string>,
    attachments: seq<string>,
    category: string)

  const SampleRecords: seq<MedicalRecord> := [
    MedicalRecord(1, "Annual Physical", "Doctor Visit", "2023-03-10", Some("Dr. Johnson"),
      Some("HealthFirst Medical Center"),
      Some("Blood pressure: 120/80, Heart rate: 72bpm, Cholesterol levels normal. Recommended annual flu shot."),
      ["physical_results.pdf"], "checkup"),
    MedicalRecord(2, "Blood Work", "Lab Results", "2023-02-15", Some("Dr. Smith (Ordered)"),
      Some("Quest Diagnostics"),
      Some("Complete blood count and metabolic panel. All results within normal range."),
      ["blood_work_results.pdf"], "test"),
    MedicalRecord(3, "Flu Shot", "Vaccination", "2023-01-05", None,
      Some("Walgreens"),
      Some("Annual flu vaccination. No adverse reactions."),
      [], "immunization"),
    MedicalRecord(4, "Dental Cleaning", "Dental Visit", "2023-02-22", Some("Dr. Nguyen"),
      Some("Bright Smile Dental"),
      Some("Regular cleaning and check-up. No cavities found."),
      ["dental_xrays.pdf"], "dental"),
    MedicalRecord(5, "Eye Examination", "Specialist Visit", "2023-03-05", Some("Dr. Williams"),
      Some("Clear Vision Eye Care"),
      Some("Vision test and eye examination. Prescription updated for reading glasses."),
      ["vision_prescription.pdf"], "specialist")
  ]

  /** The dates the "recent" tab treats as recent. */
  const RecentDates: seq<string> := ["2023-03-10", "2023-03-05"]

  // ---------------------------------------------------------------------
  // the three filters

  /** The search box: a case-insensitive substring of the title, the type
      or, when there are notes, the notes. */
  predicate MatchesSearch(term: string, r: MedicalRecord) {
    var q := Lower(term);
    || Includes(Lower(r.title), q)
    || Includes(Lower(r.kind), q)
    || (Present(r.notes) && Includes(Lower(r.notes.value), q))
  }

  /** The category selector: "all" or an exact category. */
  predicate InCategory(category: string, r: MedicalRecord) {
    if category == "all" then true else r.category == category
  }

  /** The tabs: "recent" keeps the two recent dates, any other tab keeps all. */
  predicate OnTab(tab: string, r: MedicalRecord) {
    if tab == "all" then true
    else if tab == "recent" then r.date in RecentDates
    else true
  }

  /** An empty search matches every record. */
  lemma EmptySearchMatches(r: MedicalRecord)
    ensures MatchesSearch("", r)
  {
    IncludesEmpty(Lower(r.title));
  }

  /** A record without notes is found only through its title or type. */
  lemma NoNotesSearch(term: string, r: MedicalRecord)
    requires !Present(r.notes)
    ensures MatchesSearch(term, r) <==> Includes(Lower(r.title), Lower(term)) || Includes(Lower(r.kind), Lower(term))
  {
  }

  /** The search ignores the case of the letters typed. */
  lemma SearchIgnoresCase(term: string, r: MedicalRecord)
    ensures MatchesSearch(Lower(term), r) <==> MatchesSearch(term, r)
  {
    LowerIdempotent(term);
  }

  /** A title containing the search term (in any case) always matches. */
  lemma TitleMatches(r: MedicalRecord)
    ensures MatchesSearch(r.title, r)
  {
    IncludesSelf(Lower(r.title));
  }

  // ---------------------------------------------------------------------
  // newest first

  predicate IsIsoDate(s: string) {
    && |s| == 10 && s[4] == '-' && s[7] == '-'
    && AllDigits(s[..4]) && AllDigits(s[5..7]) && AllDigits(s[8..])
  }

  /** The sort key of a date: for "YYYY-MM-DD" the number YYYYMMDD, which
      orders dates as their instants do. */
  function DateKey(s: string): int {
    if IsIsoDate(s) then DigitsValue(s[..4]) * 10000 + DigitsValue(s[5..7]) * 100 + DigitsValue(s[8..])
    else 0
  }

  function Key(r: MedicalRecord): int {
    DateKey(r.date)
  }

  predicate NewestFirst(rs: seq<MedicalRecord>) {
    forall i, j :: 0 <= i < j < |rs| ==> Key(rs[i]) >= Key(rs[j])
  }

  /** A list is newest first when its tail is and its head is not older
      than anything in the tail. */
  lemma NewestFirstCons(h: MedicalRecord, t: seq<MedicalRecord>)
    requires NewestFirst(t) && forall y :: y in t ==> Key(y) <= Key(h)
    ensures NewestFirst([h] + t)
  {
    var r := [h] + t;
    forall i, j | 0 <= i < j < |r|
      ensures Key(r[i]) >= Key(r[j])
    {
      assert r[j] == t[j - 1];
      if i > 0 {
        assert r[i] == t[i - 1];
      } else {
        assert r[j] in t;
      }
    }
  }

  /** Places `x` before the first record not newer than it, so that
      records of the same date keep their order. */
  function Insert(x: MedicalRecord, rs: seq<MedicalRecord>): seq<MedicalRecord>
    decreases |rs|
  {
    if rs == [] || Key(rs[0]) <= Key(x) then [x] + rs
    else [rs[0]] + Insert(x, rs[1..])
  }

  /** Insertion adds `x` and loses nothing. */
  lemma {:induction false} InsertPermutes(x: MedicalRecord, rs: seq<MedicalRecord>)
    ensures multiset(Insert(x, rs)) == multiset(rs) + multiset{x}
    decreases |rs|
  {
    if !(rs == [] || Key(rs[0]) <= Key(x)) {
      InsertPermutes(x, rs[1..]);
      assert rs == [rs[0]] + rs[1..];
    }
  }

  /** Insertion into a newest-first list keeps it newest first. */
  lemma {:induction false} InsertSorted(x: MedicalRecord, rs: seq<MedicalRecord>)
    requires NewestFirst(rs)
    ensures NewestFirst(Insert(x, rs))
    decreases |rs|
  {
    if rs == [] || Key(rs[0]) <= Key(x) {
      forall y | y in rs ensures Key(y) <= Key(x) {
        var k :| 0 <= k < |rs| && rs[k] == y;
        assert k == 0 || Key(rs[0]) >= Key(rs[k]);
      }
      NewestFirstCons(x, rs);
    } else {
      var t := Insert(x, rs[1..]);
      InsertSorted(x, rs[1..]);
      InsertPermutes(x, rs[1..]);
      forall y | y in t ensures Key(y) <= Key(rs[0]) {
        assert y in multiset(t);
        if y != x {
          assert y in multiset(rs[1..]);
          var k :| 0 <= k < |rs[1..]| && rs[1..][k] == y;
          assert rs[k + 1] == y;
        }
      }
      NewestFirstCons(rs[0], t);
    }
  }

  /** `.sort((a, b) => date(b) - date(a))`. */
  function SortNewestFirst(rs: seq<MedicalRecord>): seq<MedicalRecord>
    decreases |rs|
  {
    if rs == [] then [] else Insert(rs[0], SortNewestFirst(rs[1..]))
  }

  /** The sort yields a newest-first rearrangement of its input. */
  lemma {:induction false} SortNewestFirstSpec(rs: seq<MedicalRecord>)
    ensures NewestFirst(SortNewestFirst(rs))
    ensures multiset(SortNewestFirst(rs)) == multiset(rs)
    decreases |rs|
  {
    if rs != [] {
      SortNewestFirstSpec(rs[1..]);
      InsertSorted(rs[0], SortNewestFirst(rs[1..]));
      InsertPermutes(rs[0], SortNewestFirst(rs[1..]));
      assert rs == [rs[0]] + rs[1..];
    }
  }

  /** The three filters of `filteredRecords`, in the order the code applies them. */
  function Filtered(rs: seq<MedicalRecord>, term: string, category: string, tab: string): seq<MedicalRecord> {
    Filter(Filter(Filter(rs, r => MatchesSearch(term, r)), r => InCategory(category, r)), r => OnTab(tab, r))
  }

  /** `filteredRecords` over a list of records. */
  function Shape(rs: seq<MedicalRecord>, term: string, category: string, tab: string): seq<MedicalRecord> {
    SortNewestFirst(Filtered(rs, term, category, tab))
  }

  /** The list shown holds, newest first, exactly the records that pass all
      three filters, each as often as the filters keep it. */
  lemma ShapeSpec(rs: seq<MedicalRecord>, term: string, category: string, tab: string)
    ensures NewestFirst(Shape(rs, term, category, tab))
    ensures multiset(Shape(rs, term, category, tab)) == multiset(Filtered(rs, term, category, tab))
    ensures forall x :: x in Shape(rs, term, category, tab) <==>
              x in rs && MatchesSearch(term, x) && InCategory(category, x) && OnTab(tab, x)
  {
    var a := Filter(rs, r => MatchesSearch(term, r));
    var b := Filter(a, r => InCategory(category, r));
    FilterMembership(rs, r => MatchesSearch(term, r));
    FilterMembership(a, r => InCategory(category, r));
    FilterMembership(b, r => OnTab(tab, r));
    SortNewestFirstSpec(Filtered(rs, term, category, tab));
    forall x ensures x in Shape(rs, term, category, tab) <==> x in Filtered(rs, term, category, tab) {
      assert x in Shape(rs, term, category, tab) <==> x in multiset(Shape(rs, term, category, tab));
    }
  }

  /** `filteredRecords`. */
  function FilteredRecords(term: string, category: string, tab: string): seq<MedicalRecord> {
    Shape(SampleRecords, term, category, tab)
  }

  /** The "recent" tab shows only records dated on one of the two recent days. */
  lemma RecentTabDates(rs: seq<MedicalRecord>, term: string, category: string)
    ensures forall x :: x in Shape(rs, term, category, "recent") ==> x.date == "2023-03-10" || x.date == "2023-03-05"
  {
    ShapeSpec(rs, term, category, "recent");
  }

  /** With "all" everywhere and an empty search, every record is shown. */
  lemma ShowAllKeepsEverything(rs: seq<MedicalRecord>)
    ensures multiset(Shape(rs, "", "all", "all")) == multiset(rs)
  {
    forall r | r in rs ensures MatchesSearch("", r) {
      EmptySearchMatches(r);
    }
    FilterAll(rs, r => MatchesSearch("", r));
    FilterAll(rs, r => InCategory("all", r));
    FilterAll(rs, r => OnTab("all", r));
    SortNewestFirstSpec(rs);
  }
}
