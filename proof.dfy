/** The proof-of-contribution generator: the scan over the input directory,
    whose single running score is overwritten by every file, and the result
    record filled in from the final score. */
module ProofGeneration {
  import opened PyJson
  import opened RecordCheck

  /** What opening and decoding one directory entry produced: the decoded
      document, or the exception `open`/`json.load` raised. */
  datatype Entry = Parsed(doc: Json) | LoadFailed(error: Exception)

  /** The exception classes named by the scan loop's `except` clause. */
  predicate Handled(e: Exception) {
    e == JSONDecodeError || e == IOError || e == KeyError
  }

  /** One iteration of the scan: load the entry, run the record check on it,
      and turn a handled exception into a score of 0. An unhandled exception
      leaves the loop and the generator. */
  function FileOutcome(entry: Entry): (r: Eval<int>)
    ensures r.Done? ==> r.value == 0 || r.value == 1
    ensures r == Done(1) <==> entry.Parsed? && Conforms(entry.doc)
    ensures r.Raise? <==> (entry.LoadFailed? && !Handled(entry.error)) || (entry.Parsed? && Crashes(entry.doc))
    ensures r.Raise? ==> r.error == if entry.LoadFailed? then entry.error else TypeError
  {
    var attempt := if entry.LoadFailed? then Raise(entry.error) else CheckDocument(entry.doc);
    match attempt
    case Done(score) => Done(score)
    case Raise(e) => if Handled(e) then Done(0) else Raise(e)
  }

  /** The entry raises an exception the scan does not handle. */
  predicate Escapes(entry: Entry) {
    FileOutcome(entry).Raise?
  }

  /** No entry of the listing raises an unhandled exception. */
  predicate NoneEscape(entries: seq<Entry>) {
    forall i :: 0 <= i < |entries| ==> !Escapes(entries[i])
  }

  /** Entry `i` is the first one that raises an unhandled exception. */
  predicate FirstEscape(entries: seq<Entry>, i: int) {
    0 <= i < |entries| && Escapes(entries[i]) &&
    forall k :: 0 <= k < i ==> !Escapes(entries[k])
  }

  /** The final score when every entry is scored: the score of the last entry,
      or the initial 0 for an empty directory. */
  function LastScore(entries: seq<Entry>): int
    requires NoneEscape(entries)
  {
    if entries == [] then 0 else FileOutcome(entries[|entries| - 1]).value
  }

  /** The scan as a fold from the left that threads the running score through
      the iterations: each scored entry replaces it, an unhandled exception
      ends the fold. */
  function Run(entries: seq<Entry>, total: int): Eval<int>
    decreases |entries|
  {
    if entries == [] then Done(total)
    else
      var score :- FileOutcome(entries[0]);
      Run(entries[1..], score)
  }

  /** The fold completes exactly when no entry escapes, and then yields the
      last entry's score (the running score it started from when there is no
      entry); otherwise it raises the first escaping entry's exception. */
  lemma {:induction false} RunCharacterized(entries: seq<Entry>, total: int)
    ensures NoneEscape(entries) ==>
      Run(entries, total) == Done(if entries == [] then total else LastScore(entries))
    ensures !NoneEscape(entries) ==>
      exists i :: FirstEscape(entries, i) && Run(entries, total) == Raise(FileOutcome(entries[i]).error)
  {
    if entries != [] {
      var rest := entries[1..];
      match FileOutcome(entries[0])
      case Raise(e) =>
        assert FirstEscape(entries, 0);
      case Done(score) =>
        RunCharacterized(rest, score);
        assert forall k :: 0 <= k < |rest| ==> rest[k] == entries[k + 1];
        if NoneEscape(entries) {
          assert NoneEscape(rest);
        } else {
          var j :| FirstEscape(rest, j) && Run(rest, score) == Raise(FileOutcome(rest[j]).error);
          assert FirstEscape(entries, j + 1);
        }
    }
  }

  /** The scan loop of the generator: a single score, initially 0, that every
      entry overwrites with its own outcome; an unhandled exception leaves the
      loop at once. */
  method Scan(entries: seq<Entry>) returns (r: Eval<int>)
    ensures r == Run(entries, 0)
    ensures r.Done? <==> NoneEscape(entries)
    ensures r.Done? ==> r.value == LastScore(entries) && (r.value == 0 || r.value == 1)
    ensures r.Raise? ==> exists i :: FirstEscape(entries, i) && r.error == FileOutcome(entries[i]).error
  {
    var totalScore := 0;
    var i := 0;
    while i < |entries|
      invariant 0 <= i <= |entries|
      invariant NoneEscape(entries[..i])
      invariant totalScore == LastScore(entries[..i])
      invariant totalScore == 0 || totalScore == 1
    {
      match FileOutcome(entries[i])
      case Raise(e) =>
        assert FirstEscape(entries, i);
        RunCharacterized(entries, 0);
        return Raise(e);
      case Done(score) =>
        totalScore := score;
      i := i + 1;
    }
    assert entries[..i] == entries;
    RunCharacterized(entries, 0);
    return Done(totalScore);
  }

  /** Two listings with the same entries all escape or all complete alike. */
  lemma SameEntriesSameEscapes(a: seq<Entry>, b: seq<Entry>)
    requires multiset(a) == multiset(b)
    ensures NoneEscape(a) <==> NoneEscape(b)
  {
    forall i | 0 <= i < |a| ensures a[i] in b {
      assert a[i] in multiset(a);
    }
    forall i | 0 <= i < |b| ensures b[i] in a {
      assert b[i] in multiset(b);
    }
  }

  /** Listing the entries before the last one in another order changes
      neither whether the scan completes nor the score it completes with. */
  lemma ReorderBeforeLast(entries: seq<Entry>, reordered: seq<Entry>)
    requires entries != [] && |reordered| == |entries|
    requires reordered[|reordered| - 1] == entries[|entries| - 1]
    requires multiset(reordered) == multiset(entries)
    ensures Run(reordered, 0).Done? <==> Run(entries, 0).Done?
    ensures Run(entries, 0).Done? ==> Run(reordered, 0) == Run(entries, 0)
  {
    RunCharacterized(entries, 0);
    RunCharacterized(reordered, 0);
    SameEntriesSameEscapes(entries, reordered);
  }

  /** In particular, swapping two entries that are not the last. */
  lemma SwapBeforeLast(entries: seq<Entry>, i: nat, j: nat)
    requires i < |entries| - 1 && j < |entries| - 1
    ensures var swapped := entries[i := entries[j]][j := entries[i]];
      (Run(swapped, 0).Done? <==> Run(entries, 0).Done?) &&
      (Run(entries, 0).Done? ==> Run(swapped, 0) == Run(entries, 0))
  {
    var swapped := entries[i := entries[j]][j := entries[i]];
    assert multiset(swapped) == multiset(entries);
    ReorderBeforeLast(entries, swapped);
  }

  /** The final score is neither the conjunction nor the disjunction of the
      files' outcomes: for any conforming document and any document that
      fails the check without raising, the good one followed by the bad one
      scores 0, and the same two in the other order score 1. */
  lemma LastFileDecides(good: Json, bad: Json)
    requires Conforms(good)
    requires !Conforms(bad) && !Crashes(bad)
    ensures Run([Parsed(good), Parsed(bad)], 0) == Done(0)
    ensures Run([Parsed(bad), Parsed(good)], 0) == Done(1)
  {
    var goodFirst := [Parsed(good), Parsed(bad)];
    var badFirst := [Parsed(bad), Parsed(good)];
    assert NoneEscape(goodFirst) && NoneEscape(badFirst);
    RunCharacterized(goodFirst, 0);
    RunCharacterized(badFirst, 0);
  }

  /** The minimum final score for a valid proof. */
  const ScoreThreshold: real := 0.2

  /** The configuration entries the generator reads: the data liquidity pool
      id and the directory to scan. */
  datatype Config = Config(dlpId: int, inputDir: string)

  /** The outcome of `generate`: it returns the filled-in response, or an
      exception propagates to its caller. */
  datatype Outcome = Returned(response: ProofResponse) | Raised(error: Exception)

  /** The response record that `generate` fills in. Its defaults belong to a
      class that is not part of this model, so only the pool id set at
      construction is known before `generate` runs. */
  class ProofResponse {
    var dlpId: int
    var ownership: real
    var quality: real
    var authenticity: real
    var uniqueness: real
    var score: real
    var valid: bool
    var attributes: map<string, Json>
    var metadata: map<string, Json>

    constructor (dlpId: int)
      ensures this.dlpId == dlpId
    {
      this.dlpId := dlpId;
    }
  }

  class Proof {
    const config: Config
    const proofResponse: ProofResponse

    /** Keeps the configuration and creates a response carrying its pool id. */
    constructor (config: Config)
      ensures this.config == config
      ensures fresh(proofResponse) && proofResponse.dlpId == config.dlpId
    {
      this.config := config;
      proofResponse := new ProofResponse(config.dlpId);
    }

    /** Scans `listing`, the entries of `config.inputDir` in the order the
        directory listing yields them, each already opened and decoded, and
        fills in the response from the final score. An unhandled exception
        leaves the response untouched. */
    method Generate(listing: seq<Entry>) returns (outcome: Outcome)
      modifies proofResponse
      ensures outcome.Returned? <==> NoneEscape(listing)
      ensures outcome.Raised? ==>
        unchanged(proofResponse) &&
        exists i :: FirstEscape(listing, i) && outcome.error == FileOutcome(listing[i]).error
      ensures outcome.Returned? ==>
        outcome.response == proofResponse && proofResponse.dlpId == old(proofResponse.dlpId)
      ensures outcome.Returned? ==>
        var total := LastScore(listing);
        proofResponse.ownership == total as real && proofResponse.quality == total as real &&
        proofResponse.authenticity == 0.0 && proofResponse.uniqueness == 0.0
      ensures outcome.Returned? ==>
        proofResponse.score == 0.6 * proofResponse.quality + 0.4 * proofResponse.ownership &&
        proofResponse.score == LastScore(listing) as real
      ensures outcome.Returned? ==>
        (proofResponse.valid <==> LastScore(listing) as real >= ScoreThreshold) &&
        (proofResponse.valid <==> LastScore(listing) == 1)
      ensures outcome.Returned? ==>
        proofResponse.attributes == map["total_score" := Int(LastScore(listing)), "score_threshold" := Float(ScoreThreshold)] &&
        proofResponse.metadata == map["dlp_id" := Int(config.dlpId)]
    {
      var scanned := Scan(listing);
      if scanned.Raise? {
        return Raised(scanned.error);
      }
      var totalScore := scanned.value;
      proofResponse.ownership := totalScore as real;
      proofResponse.quality := totalScore as real;
      proofResponse.authenticity := 0.0;
      proofResponse.uniqueness := 0.0;
      proofResponse.score := 0.6 * proofResponse.quality + 0.4 * proofResponse.ownership;
      proofResponse.valid := totalScore as real >= ScoreThreshold;
      proofResponse.attributes := map["total_score" := Int(totalScore), "score_threshold" := Float(ScoreThreshold)];
      proofResponse.metadata := map["dlp_id" := Int(config.dlpId)];
      return Returned(proofResponse);
    }
  }
}
