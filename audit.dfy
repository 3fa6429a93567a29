/** The audit agent: per-entry compliance checks and duplicate detection over ledger records. */
module Auditing {
  import opened Common

  /** The result of JavaScript's `parseFloat`: a finite number, an infinity, or NaN. */
  datatype JsNumber = NaN | Infinity(negative: bool) | Finite(value: real)

  /** A ledger entry as the TypeScript side sees it; the amount is the raw string and a
      currency may be absent. Empty strings are the falsy values the checks look for. */
  datatype LedgerRecord = LedgerRecord(
    id: string, timestamp: string, account: string, description: string,
    amount: string, currency: Option<string>)

  datatype Verification = Verification(passed: bool, issues: seq<string>, verified: nat)

  predicate MissingRequiredFields(e: LedgerRecord)
  {
    e.id == "" || e.account == "" || e.description == ""
  }

  /** `isNaN(amount) || amount < 0`. */
  predicate InvalidAmount(n: JsNumber)
  {
    n.NaN? || (n.Infinity? && n.negative) || (n.Finite? && n.value < 0.0)
  }

  /** A present, non-empty currency code whose length is not 3. */
  predicate InvalidCurrency(e: LedgerRecord)
  {
    e.currency.Some? && e.currency.value != "" && |e.currency.value| != 3
  }

  /** The one issue an entry raises, if any: the first failing check wins. */
  function EntryIssue(e: LedgerRecord, parseFloat: string -> JsNumber): Option<string>
  {
    if MissingRequiredFields(e) then
      Some("Entry " + (if e.id == "" then "unknown" else e.id) + " missing required fields")
    else if InvalidAmount(parseFloat(e.amount)) then
      Some("Entry " + e.id + " has invalid amount: " + e.amount)
    else if InvalidCurrency(e) then
      Some("Entry " + e.id + " has invalid currency code: " + e.currency.value)
    else
      None
  }

  /** The issues of all entries, in input order. */
  function Issues(entries: seq<LedgerRecord>, parseFloat: string -> JsNumber): seq<string>
  {
    if entries == [] then []
    else
      var last := EntryIssue(entries[|entries| - 1], parseFloat);
      Issues(entries[..|entries| - 1], parseFloat) + (if last.Some? then [last.value] else [])
  }

  /** The number of entries that pass every check. */
  function Passing(entries: seq<LedgerRecord>, parseFloat: string -> JsNumber): nat
  {
    if entries == [] then 0
    else
      Passing(entries[..|entries| - 1], parseFloat)
        + (if EntryIssue(entries[|entries| - 1], parseFloat).None? then 1 else 0)
  }

  /** `verifyEntries`; `parseFloat` is JavaScript's, applied to each amount string. */
  method VerifyEntries(entries: seq<LedgerRecord>, parseFloat: string -> JsNumber) returns (result: Verification)
    ensures result.issues == Issues(entries, parseFloat)
    ensures result.verified == Passing(entries, parseFloat)
    ensures result.passed <==> result.issues == []
  {
    var issues: seq<string> := [];
    var verified := 0;
    for i := 0 to |entries|
      invariant issues == Issues(entries[..i], parseFloat)
      invariant verified == Passing(entries[..i], parseFloat)
    {
      var entry := entries[i];
      assert entries[..i + 1][..i] == entries[..i];
      if entry.id == "" || entry.account == "" || entry.description == "" {
        issues := issues + ["Entry " + (if entry.id == "" then "unknown" else entry.id) + " missing required fields"];
        continue;
      }
      var amount := parseFloat(entry.amount);
      if amount.NaN? || (amount.Infinity? && amount.negative) || (amount.Finite? && amount.value < 0.0) {
        issues := issues + ["Entry " + entry.id + " has invalid amount: " + entry.amount];
        continue;
      }
      if entry.currency.Some? && entry.currency.value != "" && |entry.currency.value| != 3 {
        issues := issues + ["Entry " + entry.id + " has invalid currency code: " + entry.currency.value];
        continue;
      }
      verified := verified + 1;
    }
    assert entries[..|entries|] == entries;
    result := Verification(|issues| == 0, issues, verified);
  }

  /** Every entry is either counted as verified or contributes exactly one issue. */
  lemma {:induction false} IssuesAndVerifiedCoverEntries(entries: seq<LedgerRecord>, parseFloat: string -> JsNumber)
    ensures Passing(entries, parseFloat) + |Issues(entries, parseFloat)| == |entries|
    decreases |entries|
  {
    if entries != [] {
      IssuesAndVerifiedCoverEntries(entries[..|entries| - 1], parseFloat);
    }
  }

  /** Issues of consecutive batches come batch by batch: no issue moves or merges. */
  lemma {:induction false} IssuesOfBatches(a: seq<LedgerRecord>, b: seq<LedgerRecord>, parseFloat: string -> JsNumber)
    ensures Issues(a + b, parseFloat) == Issues(a, parseFloat) + Issues(b, parseFloat)
    decreases |b|
  {
    if b == [] {
      assert a + b == a;
    } else {
      assert (a + b)[..|a + b| - 1] == a + b[..|b| - 1];
      IssuesOfBatches(a, b[..|b| - 1], parseFloat);
    }
  }

  /** The audit passes exactly when every single entry passes its checks. */
  lemma {:induction false} PassesIffEveryEntryPasses(entries: seq<LedgerRecord>, parseFloat: string -> JsNumber)
    ensures Issues(entries, parseFloat) == [] <==> forall i :: 0 <= i < |entries| ==> EntryIssue(entries[i], parseFloat).None?
    decreases |entries|
  {
    if entries != [] {
      var init := entries[..|entries| - 1];
      PassesIffEveryEntryPasses(init, parseFloat);
      assert forall i :: 0 <= i < |init| ==> init[i] == entries[i];
    }
  }

  /** A record with a missing required field is reported as such whatever its amount and
      currency, and an empty or absent currency never raises an issue. */
  lemma FirstFailureWins(e: LedgerRecord, parseFloat: string -> JsNumber)
    ensures MissingRequiredFields(e) ==>
              EntryIssue(e, parseFloat) == Some("Entry " + (if e.id == "" then "unknown" else e.id) + " missing required fields")
    ensures (e.currency.None? || e.currency == Some("")) && !MissingRequiredFields(e) && !InvalidAmount(parseFloat(e.amount))
      ==> EntryIssue(e, parseFloat).None?
  {
  }

  /** The key two entries must share to count as duplicates. */
  function DuplicateKey(e: LedgerRecord): string
  {
    e.timestamp + "-" + e.account + "-" + e.amount
  }

  /** The distinct keys among `entries`. */
  function KeysOf(entries: seq<LedgerRecord>): set<string>
  {
    if entries == [] then {} else KeysOf(entries[..|entries| - 1]) + {DuplicateKey(entries[|entries| - 1])}
  }

  /** How many of `entries` have key `k`. */
  function Occurrences(entries: seq<LedgerRecord>, k: string): nat
  {
    if entries == [] then 0
    else Occurrences(entries[..|entries| - 1], k) + (if DuplicateKey(entries[|entries| - 1]) == k then 1 else 0)
  }

  /** One report per entry whose key already occurred earlier, in input order. */
  function Duplicates(entries: seq<LedgerRecord>): seq<string>
  {
    if entries == [] then []
    else
      var init, last := entries[..|entries| - 1], entries[|entries| - 1];
      Duplicates(init)
        + (if DuplicateKey(last) in KeysOf(init)
           then ["Duplicate entry: " + last.id + " (" + DuplicateKey(last) + ")"] else [])
  }

  lemma {:induction false} OccursIffKey(entries: seq<LedgerRecord>, k: string)
    ensures Occurrences(entries, k) > 0 <==> k in KeysOf(entries)
    decreases |entries|
  {
    if entries != [] {
      OccursIffKey(entries[..|entries| - 1], k);
    }
  }

  /** `detectDuplicates`: counts keys in a map and reports every repeat after the first. */
  method DetectDuplicates(entries: seq<LedgerRecord>) returns (duplicates: seq<string>)
    ensures duplicates == Duplicates(entries)
  {
    var seen: map<string, nat> := map[];
    duplicates := [];
    for i := 0 to |entries|
      invariant seen.Keys == KeysOf(entries[..i])
      invariant forall k :: k in seen ==> seen[k] == Occurrences(entries[..i], k)
      invariant duplicates == Duplicates(entries[..i])
    {
      var entry := entries[i];
      var key := entry.timestamp + "-" + entry.account + "-" + entry.amount;
      var count := if key in seen then seen[key] else 0;
      assert entries[..i + 1][..i] == entries[..i];
      OccursIffKey(entries[..i], key);
      seen := seen[key := count + 1];
      if count > 0 {
        duplicates := duplicates + ["Duplicate entry: " + entry.id + " (" + key + ")"];
      }
    }
    assert entries[..|entries|] == entries;
  }

  /** The first occurrence of a key is never reported and every later one is, once: the
      report count is the number of entries minus the number of distinct keys. */
  lemma {:induction false} DuplicateCount(entries: seq<LedgerRecord>)
    ensures |Duplicates(entries)| == |entries| - |KeysOf(entries)|
    decreases |entries|
  {
    if entries != [] {
      var init, last := entries[..|entries| - 1], entries[|entries| - 1];
      DuplicateCount(init);
      if DuplicateKey(last) in KeysOf(init) {
        assert KeysOf(entries) == KeysOf(init);
      } else {
        assert |KeysOf(init) + {DuplicateKey(last)}| == |KeysOf(init)| + 1;
      }
    }
  }

  /** Entries with pairwise distinct keys produce no report. */
  lemma NoRepeatsNoReports(entries: seq<LedgerRecord>)
    requires forall i, j :: 0 <= i < j < |entries| ==> DuplicateKey(entries[i]) != DuplicateKey(entries[j])
    ensures Duplicates(entries) == []
  {
    KeysOfSize(entries);
    DuplicateCount(entries);
  }

  /** Distinct keys make as many keys as entries. */
  lemma {:induction false} KeysOfSize(entries: seq<LedgerRecord>)
    requires forall i, j :: 0 <= i < j < |entries| ==> DuplicateKey(entries[i]) != DuplicateKey(entries[j])
    ensures |KeysOf(entries)| == |entries|
    decreases |entries|
  {
    if entries != [] {
      var init, last := entries[..|entries| - 1], entries[|entries| - 1];
      KeysOfSize(init);
      KeyOccursAt(init, DuplicateKey(last));
      assert |KeysOf(init) + {DuplicateKey(last)}| == |KeysOf(init)| + 1;
    }
  }

  /** A key among `entries` is the key of one of them. */
  lemma {:induction false} KeyOccursAt(entries: seq<LedgerRecord>, k: string)
    ensures k in KeysOf(entries) <==> exists i :: 0 <= i < |entries| && DuplicateKey(entries[i]) == k
    decreases |entries|
  {
    if entries != [] {
      var init := entries[..|entries| - 1];
      KeyOccursAt(init, k);
      assert forall i :: 0 <= i < |init| ==> init[i] == entries[i];
    }
  }

  /** The key is a plain concatenation, so records that differ in timestamp and account can
      still share it when a field contains the separator. */
  lemma SeparatorCollision()
    ensures var a := LedgerRecord("1", "t", "x-y", "d", "5", None);
            var b := LedgerRecord("2", "t-x", "y", "d", "5", None);
            && a.timestamp != b.timestamp && a.account != b.account
            && DuplicateKey(a) == DuplicateKey(b) == "t-x-y-5"
            && Duplicates([a, b]) == ["Duplicate entry: 2 (t-x-y-5)"]
  {
    var a := LedgerRecord("1", "t", "x-y", "d", "5", None);
    var b := LedgerRecord("2", "t-x", "y", "d", "5", None);
    assert DuplicateKey(a) == "t-x-y-5";
    assert DuplicateKey(b) == "t-x-y-5";
    assert [a][..0] == [];
    assert KeysOf([a]) == {"t-x-y-5"};
    assert Duplicates([a]) == [];
    assert [a, b][..1] == [a];
    assert "Duplicate entry: " + b.id + " (" + DuplicateKey(b) + ")" == "Duplicate entry: 2 (t-x-y-5)";
  }
}
