/**
 * The question bank: a JSON file holding an array of question records.
 * Loading falls back to an empty list; saving gives the new record the id
 * of the LAST stored record plus one (1 for an empty bank) and rewrites the
 * whole file.
 */
module QuestionBank {
  import opened Wrappers

  /** One stored question. `id` is `None` when the record has no "id" key. */
  datatype QuestionRecord = QuestionRecord(
    id: Option<int>,
    topic: string,
    question: string,
    options: seq<string>,
    correctAnswer: string,
    explanation: string)

  /** What a read of the bank file finds. */
  datatype BankFile =
    | Missing                               // the file does not exist
    | Unreadable                            // it cannot be opened or is not valid JSON
    | Stored(records: seq<QuestionRecord>)  // it parses to this array

  /** The record's "id", or 0 when the key is missing. */
  function IdOrZero(r: QuestionRecord): int {
    match r.id
    case Some(n) => n
    case None => 0
  }

  /** The id the next save assigns: the last record's id (or 0) plus one, or 1 for an empty bank. */
  function NextId(records: seq<QuestionRecord>): int {
    if records != [] then IdOrZero(records[|records| - 1]) + 1 else 1
  }

  /** The bank's contents after one save of `q`. */
  function Appended(records: seq<QuestionRecord>, q: QuestionRecord): seq<QuestionRecord> {
    records + [q.(id := Some(NextId(records)))]
  }

  /** The bank's contents after saving each of `qs` in turn. */
  function AppendedAll(records: seq<QuestionRecord>, qs: seq<QuestionRecord>): seq<QuestionRecord>
    decreases |qs|
  {
    if qs == [] then records else AppendedAll(Appended(records, qs[0]), qs[1..])
  }

  /** The ids of the bank are 1, 2, ..., in storage order. */
  ghost predicate Sequential(records: seq<QuestionRecord>) {
    forall i :: 0 <= i < |records| ==> records[i].id == Some(i + 1)
  }

  /**
   * The caller's question dictionary. Saving writes the assigned id into it,
   * so the caller sees the id afterwards.
   */
  class Question {
    var record: QuestionRecord

    constructor (record: QuestionRecord)
      ensures this.record == record
    {
      this.record := record;
    }
  }

  /** The bank file on disk. */
  class Bank {
    var file: BankFile

    constructor (file: BankFile)
      ensures this.file == file
    {
      this.file := file;
    }

    /** The stored records; a missing or unreadable file reads as an empty bank, never as an error. */
    function Load(): (records: seq<QuestionRecord>)
      reads this
      ensures file.Stored? ==> records == file.records
      ensures !file.Stored? ==> records == []
    {
      match file
      case Stored(records) => records
      case _ => []
    }

    /**
     * Saves `q`: writes the next id into it, appends it to the loaded records
     * and rewrites the file with the result. Returns the id.
     */
    method Save(q: Question) returns (newId: int)
      modifies this, q
      ensures newId == NextId(old(Load()))
      ensures q.record == old(q.record).(id := Some(newId))
      ensures Load() == Appended(old(Load()), old(q.record))
      ensures file.Stored?
    {
      var existing := Load();
      if existing != [] {
        newId := IdOrZero(existing[|existing| - 1]) + 1;
      } else {
        newId := 1;
      }
      q.record := q.record.(id := Some(newId));
      existing := existing + [q.record];
      file := Stored(existing);
    }
  }

  /**
   * One save keeps every earlier record, adds exactly one record at the end,
   * and that record is the saved one carrying the assigned id.
   */
  lemma AppendedKeepsEarlierRecords(records: seq<QuestionRecord>, q: QuestionRecord)
    ensures |Appended(records, q)| == |records| + 1
    ensures Appended(records, q)[..|records|] == records
    ensures Appended(records, q)[|records|] == q.(id := Some(NextId(records)))
  {
  }

  /** Saving into an empty bank assigns id 1. */
  lemma FirstSaveGetsIdOne(q: QuestionRecord)
    ensures Appended([], q) == [q.(id := Some(1))]
  {
  }

  /**
   * Saving each of `qs` in turn keeps the earlier records and stores `qs`
   * in order, numbered on from the id the first save assigns.
   */
  lemma {:induction false} AppendedAllNumbersOn(records: seq<QuestionRecord>, qs: seq<QuestionRecord>)
    ensures |AppendedAll(records, qs)| == |records| + |qs|
    ensures AppendedAll(records, qs)[..|records|] == records
    ensures forall i :: 0 <= i < |qs| ==>
      AppendedAll(records, qs)[|records| + i] == qs[i].(id := Some(NextId(records) + i))
    decreases |qs|
  {
    if qs != [] {
      var next := Appended(records, qs[0]);
      AppendedAllNumbersOn(next, qs[1..]);
      var all := AppendedAll(records, qs);
      assert all == AppendedAll(next, qs[1..]);
      assert NextId(next) == NextId(records) + 1;
      assert all[..|records|] == next[..|next|][..|records|];
      forall i | 0 <= i < |qs|
        ensures all[|records| + i] == qs[i].(id := Some(NextId(records) + i))
      {
        if i == 0 {
          assert all[|records|] == all[..|next|][|records|];
        } else {
          assert all[|next| + (i - 1)] == qs[1..][i - 1].(id := Some(NextId(next) + (i - 1)));
        }
      }
    }
  }

  /** N saves into an empty bank store the N questions in order with ids 1, 2, ..., N. */
  lemma {:induction false} SavesFromEmptyBank(qs: seq<QuestionRecord>)
    ensures |AppendedAll([], qs)| == |qs|
    ensures forall i :: 0 <= i < |qs| ==> AppendedAll([], qs)[i] == qs[i].(id := Some(i + 1))
    ensures Sequential(AppendedAll([], qs))
  {
    var none: seq<QuestionRecord> := [];
    var all := AppendedAll(none, qs);
    AppendedAllNumbersOn(none, qs);
    forall i | 0 <= i < |qs|
      ensures all[i] == qs[i].(id := Some(i + 1))
    {
      assert all[|none| + i] == qs[i].(id := Some(NextId(none) + i));
    }
  }

  /** A bank numbered 1..n stays so after a save, which assigns n + 1. */
  lemma SaveKeepsSequential(records: seq<QuestionRecord>, q: QuestionRecord)
    requires Sequential(records)
    ensures NextId(records) == |records| + 1
    ensures Sequential(Appended(records, q))
  {
  }

  /** In a bank numbered 1..n no two records share an id. */
  lemma SequentialIdsAreUnique(records: seq<QuestionRecord>, i: nat, j: nat)
    requires Sequential(records)
    requires i < |records| && j < |records| && records[i].id == records[j].id
    ensures i == j
  {
  }

  /**
   * The next id follows the LAST record, not the largest id: when the last
   * record's id is below an earlier one, a save repeats an existing id.
   */
  lemma LastIdNotMaximum(q: QuestionRecord)
    ensures var records := [q.(id := Some(3)), q.(id := Some(2))];
      NextId(records) == 3 && Appended(records, q)[0].id == Appended(records, q)[2].id
  {
  }

  /** A record without an "id" key at the end of the bank makes the next save assign id 1. */
  lemma MissingLastIdRestartsAtOne(records: seq<QuestionRecord>)
    requires records != [] && records[|records| - 1].id == None
    ensures NextId(records) == 1
  {
  }
}
