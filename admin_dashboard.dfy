/**
  * The admin dashboard: the submissions stored in the browser under
  * `cvAnalysis`, their counts by type, the search box over names and e-mail
  * addresses, and the comma-separated export. JSON parsing and the date
  * formatting are parameters of the model.
  */
module Admin {
  import opened Wrappers
  import opened Text
  import Seqs

  /** The storage key the dashboard reads and writes. */
  const StorageKey := "cvAnalysis"

  /** A stored submission; `phone` is optional. */
  datatype Submission = Submission(
    id: string, name: string, email: string, phone: Option<string>,
    submissionType: string, createdAt: string)

  /** What `JSON.parse` yields for the stored text: an array of submissions or a single value. */
  datatype Json = JArray(items: seq<Submission>) | JValue(item: Submission)

  /** The three counters at the top of the dashboard. */
  datatype Stats = Stats(total: nat, builder: nat, upload: nat)

  // ---------------------------------------------------------------------------
  // Loading
  // ---------------------------------------------------------------------------

  /** `localStorage.getItem(key)`. */
  function GetItem(store: map<string, string>, key: string): (r: Option<string>)
    ensures r.Some? <==> key in store
    ensures r.Some? ==> r.value == store[key]
  {
    if key in store then Some(store[key]) else None
  }

  /**
    * `loadData`'s normalisation: nothing stored (or the empty text) gives no
    * submissions, an array is kept, any other value becomes a one-element
    * list; `None` when `JSON.parse` throws.
    */
  function Normalise(saved: Option<string>, parse: string -> Option<Json>): (r: Option<seq<Submission>>)
    ensures (saved.None? || |saved.value| == 0) ==> r == Some([])
    ensures saved.Some? && |saved.value| > 0 ==>
      match parse(saved.value)
      case None => r.None?
      case Some(JArray(items)) => r == Some(items)
      case Some(JValue(item)) => r == Some([item])
  {
    if saved.None? || |saved.value| == 0 then Some([])
    else match parse(saved.value)
      case None => None
      case Some(JArray(items)) => Some(items)
      case Some(JValue(item)) => Some([item])
  }

  predicate IsBuilder(s: Submission) { s.submissionType == "builder" }
  predicate IsUpload(s: Submission) { s.submissionType == "upload" }

  /** The counters: every submission, those of type `builder`, those of type `upload`. */
  function StatsOf(subs: seq<Submission>): (r: Stats)
    ensures r.total == |subs|
    ensures r.builder == |Seqs.Filter(subs, IsBuilder)|
    ensures r.upload == |Seqs.Filter(subs, IsUpload)|
  {
    Stats(|subs|, |Seqs.Filter(subs, IsBuilder)|, |Seqs.Filter(subs, IsUpload)|)
  }

  /** No submission is of both types, so the two type counters never exceed the total. */
  lemma TypeCountsBounded(subs: seq<Submission>)
    ensures StatsOf(subs).builder + StatsOf(subs).upload <= StatsOf(subs).total
  {
    Seqs.FilterDisjointCount(subs, IsBuilder, IsUpload);
  }

  /** The type counters add up to the total exactly when every submission is of one of the two types. */
  lemma TypeCountsExact(subs: seq<Submission>)
    requires forall k :: 0 <= k < |subs| ==> IsBuilder(subs[k]) || IsUpload(subs[k])
    ensures StatsOf(subs).builder + StatsOf(subs).upload == StatsOf(subs).total
  {
    Seqs.FilterComplementCount(subs, IsBuilder, IsUpload);
  }

  // ---------------------------------------------------------------------------
  // Search
  // ---------------------------------------------------------------------------

  /** A submission matches when its lower-cased name or e-mail address contains the lower-cased term. */
  predicate Matches(s: Submission, term: string) {
    Contains(ToLower(s.name), ToLower(term)) || Contains(ToLower(s.email), ToLower(term))
  }

  /** `filteredSubmissions`: the matching submissions, in their stored order. */
  function FilteredSubmissions(subs: seq<Submission>, term: string): (r: seq<Submission>)
    ensures Seqs.IsSubsequence(r, subs)
    ensures forall k :: 0 <= k < |r| ==> Matches(r[k], term)
    ensures forall k :: 0 <= k < |subs| && Matches(subs[k], term) ==> subs[k] in r
    ensures forall x :: multiset(r)[x] == if Matches(x, term) then multiset(subs)[x] else 0
  {
    Seqs.FilterMultiplicity(subs, s => Matches(s, term));
    Seqs.Filter(subs, s => Matches(s, term))
  }

  /** An empty search box shows every submission. */
  lemma EmptyTermKeepsAll(subs: seq<Submission>)
    ensures FilteredSubmissions(subs, "") == subs
  {
    forall s | s in subs ensures Matches(s, "") {
      ContainsEmpty(ToLower(s.name));
    }
    Seqs.FilterKeepsAll(subs, s => Matches(s, ""));
  }

  // ---------------------------------------------------------------------------
  // Export
  // ---------------------------------------------------------------------------

  /** The header row of the export. */
  const Header := ["Name", "Email", "Phone", "Type", "Created At"]

  /** `sub.phone || ""`: a missing or empty phone number is written as the empty field. */
  function PhoneField(phone: Option<string>): (r: string)
    ensures phone.Some? ==> r == phone.value
    ensures phone.None? ==> r == ""
  {
    if phone.Some? && |phone.value| > 0 then phone.value else ""
  }

  /** The five fields of one submission's row. */
  function Row(s: Submission, formatDate: string -> string): (r: seq<string>)
    ensures |r| == |Header|
  {
    [s.name, s.email, PhoneField(s.phone), s.submissionType, formatDate(s.createdAt)]
  }

  /** The header and then one row per submission, in order. */
  function Rows(subs: seq<Submission>, formatDate: string -> string): (r: seq<seq<string>>)
    ensures |r| == 1 + |subs| && r[0] == Header
    ensures forall k :: 0 <= k < |subs| ==> r[k + 1] == Row(subs[k], formatDate)
  {
    [Header] + seq(|subs|, k requires 0 <= k < |subs| => Row(subs[k], formatDate))
  }

  /** Each row joined with commas. */
  function Lines(rows: seq<seq<string>>): (r: seq<string>)
    ensures |r| == |rows|
    ensures forall k :: 0 <= k < |rows| ==> r[k] == Join(rows[k], ",")
  {
    seq(|rows|, k requires 0 <= k < |rows| => Join(rows[k], ","))
  }

  /** `exportData`'s text: the rows joined with commas, the lines joined with line breaks; no quoting. */
  function ExportCsv(subs: seq<Submission>, formatDate: string -> string): string {
    Join(Lines(Rows(subs, formatDate)), "\n")
  }

  /** No field of any row contains `c`. */
  predicate FieldsFree(rows: seq<seq<string>>, c: char) {
    forall k, j :: 0 <= k < |rows| && 0 <= j < |rows[k]| ==> c !in rows[k][j]
  }

  /** A row splits back into its five fields exactly when no field contains a comma. */
  lemma RowColumnsIff(s: Submission, formatDate: string -> string)
    ensures |Split(Join(Row(s, formatDate), ","), ',')| == |Header|
        <==> forall j :: 0 <= j < |Header| ==> ',' !in Row(s, formatDate)[j]
  {
    SplitJoinCountIff(Row(s, formatDate), ',');
  }

  /** Joining fields free of `c` with commas gives lines free of `c`, when `c` is not the comma. */
  lemma LinesFree(rows: seq<seq<string>>, c: char)
    requires c != ',' && FieldsFree(rows, c)
    ensures forall k :: 0 <= k < |rows| ==> c !in Lines(rows)[k]
  {
    forall k | 0 <= k < |rows| ensures c !in Lines(rows)[k] {
      if |rows[k]| == 0 {
        assert Lines(rows)[k] == "";
      } else {
        JoinFree(rows[k], ',', c);
      }
    }
  }

  /** The header line of the export, kept apart so that `ExportLines` need not evaluate the join itself. */
  lemma HeaderLine()
    ensures Join(Header, ",") == "Name,Email,Phone,Type,Created At"
  {
  }

  /**
    * When no field contains a line break, the export has exactly one line per
    * row: the header first, then every stored submission (not only the ones
    * the search shows).
    */
  lemma ExportLines(subs: seq<Submission>, formatDate: string -> string)
    requires FieldsFree(Rows(subs, formatDate), '\n')
    ensures Split(ExportCsv(subs, formatDate), '\n') == Lines(Rows(subs, formatDate))
    ensures |Split(ExportCsv(subs, formatDate), '\n')| == 1 + |subs|
    ensures Split(ExportCsv(subs, formatDate), '\n')[0] == "Name,Email,Phone,Type,Created At"
  {
    var lines := Lines(Rows(subs, formatDate));
    LinesFree(Rows(subs, formatDate), '\n');
    SplitJoin(lines, '\n');
    HeaderLine();
  }

  /** When no field contains a comma or a line break, splitting the export gives back every row, field by field. */
  lemma ExportRoundTrip(subs: seq<Submission>, formatDate: string -> string, k: int)
    requires FieldsFree(Rows(subs, formatDate), '\n') && FieldsFree(Rows(subs, formatDate), ',')
    requires 0 <= k <= |subs|
    ensures var lines := Split(ExportCsv(subs, formatDate), '\n');
      k < |lines| && Split(lines[k], ',') == Rows(subs, formatDate)[k]
  {
    var rows := Rows(subs, formatDate);
    ExportLines(subs, formatDate);
    assert forall j :: 0 <= j < |rows[k]| ==> ',' !in rows[k][j];
    SplitJoin(rows[k], ',');
  }

  /** A line break in any field adds a line to the export. */
  lemma LineBreakSplitsRow(subs: seq<Submission>, formatDate: string -> string)
    requires !FieldsFree(Rows(subs, formatDate), '\n')
    ensures |Split(ExportCsv(subs, formatDate), '\n')| > 1 + |subs|
  {
    var rows := Rows(subs, formatDate);
    var lines := Lines(rows);
    var k, j :| 0 <= k < |rows| && 0 <= j < |rows[k]| && '\n' in rows[k][j];
    JoinFree(rows[k], ',', '\n');
    SplitJoinCountIff(lines, '\n');
    CountJoin(lines, '\n', '\n');
    assert '\n' in lines[k];
  }

  // ---------------------------------------------------------------------------
  // Browser storage helpers
  // ---------------------------------------------------------------------------

  /**
    * `saveToLocalStorage`: writes the serialised value under the key and
    * answers true, or answers false and leaves the store as it was when the
    * write throws (`writeFails`).
    */
  function SaveToLocalStorage(store: map<string, string>, serialised: string, writeFails: bool): (r: (bool, map<string, string>))
    ensures r.0 <==> !writeFails
    ensures r.0 ==> r.1 == store[StorageKey := serialised]
    ensures !r.0 ==> r.1 == store
  {
    if writeFails then (false, store) else (true, store[StorageKey := serialised])
  }

  /** `getFromLocalStorage`: the parsed value, or null when nothing (or the empty text) is stored or parsing throws. */
  function GetFromLocalStorage(store: map<string, string>, parse: string -> Option<Json>): (r: Option<Json>)
    ensures StorageKey !in store ==> r.None?
    ensures StorageKey in store && |store[StorageKey]| == 0 ==> r.None?
    ensures StorageKey in store && |store[StorageKey]| > 0 ==> r == parse(store[StorageKey])
  {
    if StorageKey in store && |store[StorageKey]| > 0 then parse(store[StorageKey]) else None
  }

  /** A successful save is read back as whatever the stored text parses to. */
  lemma SaveThenGet(store: map<string, string>, serialised: string, parse: string -> Option<Json>)
    requires |serialised| > 0
    ensures GetFromLocalStorage(SaveToLocalStorage(store, serialised, false).1, parse) == parse(serialised)
  {
  }

  /** A failed save leaves what a later read returns unchanged. */
  lemma FailedSaveKeepsStore(store: map<string, string>, serialised: string, parse: string -> Option<Json>)
    ensures GetFromLocalStorage(SaveToLocalStorage(store, serialised, true).1, parse) == GetFromLocalStorage(store, parse)
  {
  }

  /** Saving the text of an array of submissions and loading the dashboard gives back that array and its counts. */
  lemma SaveThenLoad(store: map<string, string>, serialised: string, subs: seq<Submission>, parse: string -> Option<Json>)
    requires |serialised| > 0 && parse(serialised) == Some(JArray(subs))
    ensures Normalise(GetItem(SaveToLocalStorage(store, serialised, false).1, StorageKey), parse) == Some(subs)
  {
  }

  // ---------------------------------------------------------------------------
  // The component
  // ---------------------------------------------------------------------------

  class AdminDashboard {
    var submissions: seq<Submission>
    var stats: Stats
    var loading: bool
    var searchTerm: string
    var selectedSubmission: Option<Submission>

    /** The counters always describe the list shown. */
    predicate Valid()
      reads this
    {
      stats == StatsOf(submissions)
    }

    /** Mounting the dashboard: empty state, then `loadData` on the current store. */
    constructor(store: map<string, string>, parse: string -> Option<Json>)
      ensures Valid() && !loading && searchTerm == "" && selectedSubmission.None?
      ensures Normalise(GetItem(store, StorageKey), parse).Some? ==> submissions == Normalise(GetItem(store, StorageKey), parse).value
      ensures Normalise(GetItem(store, StorageKey), parse).None? ==> submissions == []
    {
      submissions := [];
      stats := Stats(0, 0, 0);
      loading := true;
      searchTerm := "";
      selectedSubmission := None;
      new;
      LoadData(store, parse);
    }

    /**
      * `loadData`: on success the list and the counters are replaced; on a
      * parse failure both stay as they were. Loading ends on both paths.
      */
    method LoadData(store: map<string, string>, parse: string -> Option<Json>)
      requires Valid()
      modifies this
      ensures Valid() && !loading
      ensures searchTerm == old(searchTerm) && selectedSubmission == old(selectedSubmission)
      ensures Normalise(GetItem(store, StorageKey), parse).Some? ==> submissions == Normalise(GetItem(store, StorageKey), parse).value
      ensures Normalise(GetItem(store, StorageKey), parse).None? ==> submissions == old(submissions)
    {
      var saved := GetItem(store, StorageKey);
      var loaded := Normalise(saved, parse);
      if loaded.Some? {
        submissions := loaded.value;
        stats := StatsOf(loaded.value);
      }
      loading := false;
    }

    /** Typing in the search box. */
    method SetSearchTerm(term: string)
      requires Valid()
      modifies this
      ensures Valid() && searchTerm == term
      ensures submissions == old(submissions) && stats == old(stats) && loading == old(loading)
      ensures selectedSubmission == old(selectedSubmission)
    {
      searchTerm := term;
    }

    /** Opening (or closing, with `None`) a submission's details. */
    method SelectSubmission(s: Option<Submission>)
      requires Valid()
      modifies this
      ensures Valid() && selectedSubmission == s
      ensures submissions == old(submissions) && searchTerm == old(searchTerm)
      ensures stats == old(stats) && loading == old(loading)
    {
      selectedSubmission := s;
    }

    /** The table's rows for the current search. */
    function Shown(): (r: seq<Submission>)
      reads this
      ensures Seqs.IsSubsequence(r, submissions)
      ensures forall k :: 0 <= k < |r| ==> Matches(r[k], searchTerm)
      ensures forall k :: 0 <= k < |submissions| && Matches(submissions[k], searchTerm) ==> submissions[k] in r
      ensures forall x :: multiset(r)[x] == if Matches(x, searchTerm) then multiset(submissions)[x] else 0
    {
      FilteredSubmissions(submissions, searchTerm)
    }

    /**
      * `exportData`: the text of the downloaded file, built from every stored
      * submission rather than from the rows the search shows.
      */
    method ExportData(formatDate: string -> string) returns (csv: string)
      ensures csv == ExportCsv(submissions, formatDate)
      ensures FieldsFree(Rows(submissions, formatDate), '\n') ==> |Split(csv, '\n')| == 1 + |submissions|
      ensures !FieldsFree(Rows(submissions, formatDate), '\n') ==> |Split(csv, '\n')| > 1 + |submissions|
    {
      csv := ExportCsv(submissions, formatDate);
      if FieldsFree(Rows(submissions, formatDate), '\n') {
        ExportLines(submissions, formatDate);
      } else {
        LineBreakSplitsRow(submissions, formatDate);
      }
    }
  }
}
