/** What becomes of a clarification: the column that stores its text is shorter than the model's answers may be. */
module Clarifications {
  import opened Prelude
  import opened Instruction
  import opened Payments
  import opened Journal
  import opened Worker

  function Asking(job: Row, why: Clarification): Phase {
    Finishing(job, Plain(NeedsClarification, ClarificationText(why)), None)
  }

  lemma ParsersTextsFit(why: Clarification)
    ensures FitsColumn(Some(ClarificationText(why))) <==> (why.AskedByModel? ==> SpacesFrom(why.message, 100))
  {
  }

  /**
   * A clarification is stored, and its row ends with the first hundred characters of it, exactly when
   * nothing but spaces follows those. The parser's own texts all fit.
   */
  lemma ClarificationIsStored(t: Tables, worker: WorkerId, job: Row, why: Clarification)
    requires Owns(t, job.id, worker)
    ensures var after, text := Statement(t, worker, Asking(job, why)), ClarificationText(why);
            && (after.Some? <==> (why.AskedByModel? ==> SpacesFrom(why.message, 100)))
            && (after.Some? ==>
                  && job.id in after.value.rows && after.value.rows[job.id].state == NeedsClarification
                  && after.value.rows[job.id].errorCode == Some(text[..Min(|text|, 100)])
                  && after.value.rows[job.id].leaseOwner.None?)
  {
    ParsersTextsFit(why);
    hide ClarificationText, SpacesFrom;
  }

  /**
   * From the model's answer: whatever instruction goes to the model, a question of the model's is stored
   * exactly when its first three hundred characters hold only spaces after the hundredth. Otherwise the
   * statement fails and the row stays queued, to be claimed and asked about again.
   */
  lemma ModelsQuestionIsStored(t: Tables, worker: WorkerId, job: Row, deps: Dependencies, message: string)
    requires Owns(t, job.id, worker)
    requires 0 < |Trim(job.text)| <= MAX_INSTRUCTION_LENGTH
    requires ParseDeterministically(Trim(job.text), deps.recipients, deps.allowAny, deps.checksum).None?
    ensures var asked := Parsed(job, deps, Some(ModelClarifies(Some(message))));
            && asked.Finishing? && asked.result.state == NeedsClarification
            && (Statement(t, worker, asked).Some? <==> SpacesFrom(message[..Min(|message|, 300)], 100))
  {
    var shown := message[..Min(|message|, 300)];
    var text := if shown == "" then "Clarify the payment instruction." else shown;
    hide Trim, ParseDeterministically;
    assert Parsed(job, deps, Some(ModelClarifies(Some(message)))) == Asking(job, AskedByModel(text));
    ClarificationIsStored(t, worker, job, AskedByModel(text));
    hide Statement;
  }

  /** One such input: an instruction of one word, answered with a question of 101 letters. */
  lemma LongQuestionIsNotStored(t: Tables, worker: WorkerId, job: Row, deps: Dependencies)
    requires Owns(t, job.id, worker) && job.text == "pay"
    ensures Statement(t, worker, Parsed(job, deps, Some(ModelClarifies(Some(seq(101, i => 'x')))))) == None
  {
    var message := seq(101, i => 'x');
    assert !IsSpace('p') && !IsSpace('y');
    TrimOfToken("pay");
    OneWordHasNoGroups();
    hide Groups, Trim;
    assert message[..Min(|message|, 300)][100] == 'x';
    ModelsQuestionIsStored(t, worker, job, deps, message);
    hide Parsed, Statement;
  }

  lemma OneWordHasNoGroups()
    ensures Groups("pay") == None
  {
    assert "pay"[..3] == "pay" && Lower("pay") == "pay" && "pay"[3..] == "";
    assert Word("pay", "pay") == Some("");
  }
}
