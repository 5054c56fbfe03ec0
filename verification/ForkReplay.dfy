/** Forking a sub-thread: the client-held links, and the replay rule that keeps a fork from being sent twice. */
module ForkReplay {
  import opened Options

  datatype Link = Link(workbenchLocalId: string, messageId: string, inReplyTo: Option<string>,
                       references: Option<seq<string>>, subject: Option<string>,
                       to: Option<seq<string>>, body: Option<string>)

  // What one storage key holds: nothing, text that is no JSON array, or rows.
  datatype Stored = Absent | Corrupt | Rows(rows: seq<Link>)

  predicate NonEmpty(text: Option<string>) {
    text.Some? ==> text.value != ""
  }

  // The schema of a row; a row that fails it is skipped when the links are loaded.
  predicate WellFormed(link: Link) {
    && link.workbenchLocalId != "" && link.messageId != "" && NonEmpty(link.inReplyTo) && NonEmpty(link.subject)
    && (link.references.Some? ==> "" !in link.references.value)
  }

  function Row(link: Link): seq<Link> {
    if WellFormed(link) then [link] else []
  }

  function WellFormedRows(rows: seq<Link>): seq<Link> {
    if rows == [] then []
    else WellFormedRows(rows[..|rows| - 1]) + Row(rows[|rows| - 1])
  }

  function Load(stored: Stored): seq<Link> {
    if stored.Rows? then WellFormedRows(stored.rows) else []
  }

  function Without(links: seq<Link>, messageId: string): seq<Link> {
    if links == [] then []
    else (if links[0].messageId == messageId then [] else [links[0]]) + Without(links[1..], messageId)
  }

  function Record(stored: Stored, link: Link): Stored {
    Rows(Without(Load(stored), link.messageId) + [link])
  }

  datatype Fork = Fork(workbenchLocalId: string, parentId: string, references: seq<string>,
                       subject: string, to: seq<string>, body: string)

  // What two forks are compared by; the parent's references do not matter.
  datatype Key = Key(workbenchLocalId: string, parentId: string, subject: string, to: seq<string>, body: string)

  function KeyOf(fork: Fork): Key {
    Key(fork.workbenchLocalId, fork.parentId, fork.subject, fork.to, fork.body)
  }

  /** The parent closes the references, once; the ancestry stays in front. */
  function ForkReferences(parentId: string, references: seq<string>): (chain: seq<string>)
    ensures references <= chain && |chain| <= |references| + 1 && chain != [] && chain[|chain| - 1] == parentId
    ensures references == [] || references[|references| - 1] != parentId ==> chain != references
  {
    if references != [] && references[|references| - 1] == parentId then references else references + [parentId]
  }

  function LinkOf(fork: Fork, id: string): Link {
    Link(fork.workbenchLocalId, id, Some(fork.parentId), Some(ForkReferences(fork.parentId, fork.references)),
         Some(fork.subject), Some(fork.to), Some(fork.body))
  }

  // Rows written before recipients and body were kept match on the rest.
  predicate Matches(link: Link, key: Key) {
    && link.workbenchLocalId == key.workbenchLocalId && link.inReplyTo == Some(key.parentId)
    && link.subject == Some(key.subject)
    && (link.to.None? || link.to.value == key.to) && (link.body.None? || link.body.value == key.body)
  }

  function FirstMatch(links: seq<Link>, key: Key): Option<string> {
    if links == [] then None
    else if Matches(links[0], key) then Some(links[0].messageId)
    else FirstMatch(links[1..], key)
  }

  // The message id a fork is replayed as.
  function Answer(stored: Stored, key: Key): Option<string> {
    FirstMatch(Load(stored), key)
  }

  class ThreadLinkStore {
    var stored: Stored

    constructor (initial: Stored)
      ensures stored == initial
    {
      stored := initial;
    }

    method LoadLinks() returns (links: seq<Link>)
      ensures links == Load(stored)
    {
      links := [];
      if stored.Rows? {
        for i := 0 to |stored.rows|
          invariant links == WellFormedRows(stored.rows[..i])
        {
          assert stored.rows[..i + 1][..i] == stored.rows[..i];
          if WellFormed(stored.rows[i]) {
            links := links + [stored.rows[i]];
          }
        }
        assert stored.rows[..|stored.rows|] == stored.rows;
      }
    }

    method RecordLink(link: Link)
      modifies this
      ensures stored == Record(old(stored), link)
    {
      var links := LoadLinks();
      stored := Rows(Without(links, link.messageId) + [link]);
    }

    // `reply` is the answer to the mail, if it is sent: its message id, or None when the request throws,
    // because the hub refused the mail or because its answer was lost.
    method ForkSubThread(fork: Fork, reply: Option<string>) returns (id: Option<string>, sent: bool)
      modifies this
      ensures sent == Answer(old(stored), KeyOf(fork)).None?
      ensures id == if sent then reply else Answer(old(stored), KeyOf(fork))
      ensures stored == if sent && reply.Some? then Record(old(stored), LinkOf(fork, reply.value)) else old(stored)
    {
      var links := LoadLinks();
      var replay := FirstMatch(links, KeyOf(fork));
      if replay.Some? {
        return replay, false;
      }
      if reply.Some? {
        RecordLink(LinkOf(fork, reply.value));
      }
      return reply, true;
    }
  }

  // How the hub deals with a mail. After a lost answer it has the mail, and the caller an exception.
  datatype Reply = Answered(id: string) | Refused | AnswerLost

  datatype Event = Replayed(key: Key, id: string) | Sent(key: Key, id: string) | Unanswered(key: Key) | Failed(key: Key)

  // The hub accepted a mail.
  predicate IsMail(e: Event) {
    e.Sent? || e.Unanswered?
  }

  // The caller got a message id.
  predicate GaveId(e: Event) {
    e.Sent? || e.Replayed?
  }

  // Forks overlap while their mail is on its way; the numbers of the calls tell them apart.
  datatype State = State(stored: Stored, pending: map<nat, Fork>, log: seq<Event>)

  datatype Step = Begin(call: nat, fork: Fork) | Finish(call: nat, reply: Reply)

  predicate Enabled(s: State, step: Step) {
    if step.Begin? then step.call !in s.pending else step.call in s.pending
  }

  function Next(s: State, step: Step): State
    requires Enabled(s, step)
  {
    match step
    case Begin(call, fork) =>
      (match Answer(s.stored, KeyOf(fork))
       case Some(id) => s.(log := s.log + [Replayed(KeyOf(fork), id)])
       case None => s.(pending := s.pending[call := fork]))
    case Finish(call, reply) =>
      var fork := s.pending[call];
      var rest := s.(pending := s.pending - {call});
      match reply
      case Refused => rest.(log := s.log + [Failed(KeyOf(fork))])
      case AnswerLost => rest.(log := s.log + [Unanswered(KeyOf(fork))])
      case Answered(id) => rest.(stored := Record(s.stored, LinkOf(fork, id)), log := s.log + [Sent(KeyOf(fork), id)])
  }

  // The fields the row schema wants non-empty.
  predicate Recordable(fork: Fork) {
    fork.workbenchLocalId != "" && fork.parentId != "" && fork.subject != "" && "" !in fork.references
  }

  ghost predicate Fresh(stored: Stored, id: string) {
    forall link | link in Load(stored) :: link.messageId != id
  }

  // Recordable forks, fresh message ids, and no two equal forks on their way at once.
  ghost predicate Admissible(s: State, step: Step) {
    && Enabled(s, step)
    && (step.Begin? ==> Recordable(step.fork))
    && (step.Begin? ==> forall call | call in s.pending :: KeyOf(s.pending[call]) != KeyOf(step.fork))
    && (step.Finish? && step.reply.Answered? ==> step.reply.id != "" && Fresh(s.stored, step.reply.id))
  }

  ghost predicate Run(s: State, steps: seq<Step>, end: State)
    decreases |steps|
  {
    if steps == [] then end == s
    else Admissible(s, steps[0]) && Run(Next(s, steps[0]), steps[1..], end)
  }

  lemma {:induction false} WithoutFresh(links: seq<Link>, id: string)
    requires forall link | link in links :: link.messageId != id
    ensures Without(links, id) == links
  {
    if links != [] {
      WithoutFresh(links[1..], id);
    }
  }

  lemma {:induction false} WithoutKeepsForm(links: seq<Link>, id: string)
    requires forall link | link in links :: WellFormed(link)
    ensures forall link | link in Without(links, id) :: WellFormed(link) && link in links
  {
    if links != [] {
      WithoutKeepsForm(links[1..], id);
    }
  }

  lemma {:induction false} LoadedAreWellFormed(rows: seq<Link>)
    ensures forall link | link in WellFormedRows(rows) :: WellFormed(link)
    ensures (forall link | link in rows :: WellFormed(link)) ==> WellFormedRows(rows) == rows
  {
    if rows != [] {
      LoadedAreWellFormed(rows[..|rows| - 1]);
      assert rows == rows[..|rows| - 1] + [rows[|rows| - 1]];
    }
  }

  function Present(text: Option<string>): seq<string> {
    if text.Some? then [text.value] else []
  }

  // The texts of a row that may not be empty; recipients and the body may.
  function Fields(link: Link): seq<string> {
    [link.workbenchLocalId, link.messageId] + Present(link.inReplyTo) + Present(link.subject) +
    if link.references.Some? then link.references.value else []
  }

  /** A stored row is loaded exactly when no such text in it is empty, whichever are absent. */
  lemma {:induction false} LoadedIff(rows: seq<Link>, link: Link)
    ensures link in Load(Rows(rows)) <==> link in rows && "" !in Fields(link)
  {
    if rows != [] {
      var init, last := rows[..|rows| - 1], rows[|rows| - 1];
      LoadedIff(init, link);
      WellFormedIff(last);
      assert link in rows <==> link in init || link == last;
    }
  }

  lemma WellFormedIff(link: Link)
    ensures WellFormed(link) <==> "" !in Fields(link)
  {
  }

  // What is loaded after a row was recorded: the earlier rows under other ids, and the row if the schema takes it.
  lemma LoadRecorded(stored: Stored, link: Link)
    ensures Load(Record(stored, link)) == Without(Load(stored), link.messageId) + Row(link)
  {
    var kept := Without(Load(stored), link.messageId);
    if stored.Rows? {
      LoadedAreWellFormed(stored.rows);
    }
    WithoutKeepsForm(Load(stored), link.messageId);
    LoadedAreWellFormed(kept);
    assert (kept + [link])[..|kept|] == kept;
  }

  lemma {:induction false} FirstMatchConcat(a: seq<Link>, b: seq<Link>, key: Key)
    ensures FirstMatch(a + b, key) == if FirstMatch(a, key).Some? then FirstMatch(a, key) else FirstMatch(b, key)
  {
    if a == [] {
      assert a + b == b;
    } else {
      assert (a + b)[0] == a[0] && (a + b)[1..] == a[1..] + b;
      FirstMatchConcat(a[1..], b, key);
    }
  }

  lemma {:induction false} NoMatchWithout(links: seq<Link>, id: string, key: Key)
    requires FirstMatch(links, key).None?
    ensures FirstMatch(Without(links, id), key).None?
  {
    if links != [] {
      NoMatchWithout(links[1..], id, key);
      assert [] + Without(links[1..], id) == Without(links[1..], id);
    }
  }

  /** A retry of a fork just sent is replayed under its id exactly when every field the schema wants
      non-empty is: otherwise the recorded row is skipped and the retry sends again. */
  lemma RetryIsReplayedIff(stored: Stored, fork: Fork, id: string)
    requires Answer(stored, KeyOf(fork)).None?
    ensures var retry := Answer(Record(stored, LinkOf(fork, id)), KeyOf(fork));
      if Recordable(fork) && id != "" then retry == Some(id) else retry.None?
  {
    var link := LinkOf(fork, id);
    var kept := Without(Load(stored), id);
    LoadRecorded(stored, link);
    NoMatchWithout(Load(stored), id, KeyOf(fork));
    FirstMatchConcat(kept, Row(link), KeyOf(fork));
    assert WellFormed(link) <==> Recordable(fork) && id != "" by {
      var chain := ForkReferences(fork.parentId, fork.references);
      assert fork.references == chain || chain == fork.references + [fork.parentId];
    }
    assert Matches(link, KeyOf(fork));
  }

  // A fresh record leaves every other fork's answer as it was.
  lemma RecordKeepsAnswers(stored: Stored, fork: Fork, id: string, key: Key)
    requires Fresh(stored, id) && key != KeyOf(fork)
    ensures Answer(Record(stored, LinkOf(fork, id)), key) == Answer(stored, key)
  {
    var link := LinkOf(fork, id);
    LoadRecorded(stored, link);
    WithoutFresh(Load(stored), id);
    FirstMatchConcat(Load(stored), Row(link), key);
    assert !Matches(link, key);
  }

  // Every event that gave an id is what the store still answers, and what is on its way is unanswered.
  ghost predicate Inv(s: State) {
    && (forall i | 0 <= i < |s.log| && GaveId(s.log[i]) :: Answer(s.stored, s.log[i].key) == Some(s.log[i].id))
    && (forall i, j | 0 <= i < j < |s.log| && GaveId(s.log[i]) && s.log[i].key == s.log[j].key :: s.log[j].Replayed?)
    && (forall c | c in s.pending :: Recordable(s.pending[c]) && Answer(s.stored, KeyOf(s.pending[c])).None?)
    && (forall c, d | c in s.pending && d in s.pending && c != d :: KeyOf(s.pending[c]) != KeyOf(s.pending[d]))
  }

  lemma StepKeeps(s: State, step: Step)
    requires Inv(s) && Admissible(s, step)
    ensures Inv(Next(s, step))
  {
    hide Answer, Record, LinkOf, Fresh;
    if step.Finish? && step.reply.Answered? {
      var fork, id := s.pending[step.call], step.reply.id;
      RetryIsReplayedIff(s.stored, fork, id);
      forall key | key != KeyOf(fork)
        ensures Answer(Record(s.stored, LinkOf(fork, id)), key) == Answer(s.stored, key)
      {
        RecordKeepsAnswers(s.stored, fork, id, key);
      }
    }
  }

  lemma {:induction false} RunKeeps(s: State, steps: seq<Step>, end: State)
    requires Inv(s) && Run(s, steps, end)
    ensures Inv(end)
    decreases |steps|
  {
    if steps != [] {
      StepKeeps(s, steps[0]);
      RunKeeps(Next(s, steps[0]), steps[1..], end);
    }
  }

  /** Over every run, from whatever the storage held, once a fork got an id every later equal one is
      replayed under that id: none is sent, and none fails. */
  lemma EqualForksAreSentOnce(initial: Stored, steps: seq<Step>, end: State, i: nat, j: nat)
    requires Run(State(initial, map[], []), steps, end)
    requires i < j < |end.log| && end.log[i].key == end.log[j].key && GaveId(end.log[i])
    ensures end.log[j] == Replayed(end.log[i].key, end.log[i].id)
  {
    RunKeeps(State(initial, map[], []), steps, end);
  }

  /** So the hub accepts equal mails twice only where the answer to the first one was lost. */
  lemma OnlyLostAnswersRepeat(initial: Stored, steps: seq<Step>, end: State, i: nat, j: nat)
    requires Run(State(initial, map[], []), steps, end)
    requires i < j < |end.log| && end.log[i].key == end.log[j].key && IsMail(end.log[i]) && IsMail(end.log[j])
    ensures end.log[i].Unanswered?
  {
    RunKeeps(State(initial, map[], []), steps, end);
  }

  // Every answer and every replay goes back to a send of this run.
  ghost predicate Grounded(s: State) {
    && (forall key | Answer(s.stored, key).Some? :: Sent(key, Answer(s.stored, key).value) in s.log)
    && (forall i | 0 <= i < |s.log| && s.log[i].Replayed? :: Sent(s.log[i].key, s.log[i].id) in s.log[..i])
  }

  lemma StepKeepsGround(s: State, step: Step)
    requires Inv(s) && Grounded(s) && Admissible(s, step)
    ensures Grounded(Next(s, step))
  {
    hide Answer, Record, LinkOf, Fresh;
    var after := Next(s, step);
    if after.log != s.log {
      var n := |s.log|;
      assert after.log[..n] == s.log;
      forall i | 0 <= i < |after.log| && after.log[i].Replayed?
        ensures Sent(after.log[i].key, after.log[i].id) in after.log[..i]
      {
        if i < n {
          assert after.log[..i] == s.log[..i];
        }
      }
      forall key | Answer(after.stored, key).Some? ensures Sent(key, Answer(after.stored, key).value) in after.log {
        if step.Finish? && step.reply.Answered? {
          var fork, id := s.pending[step.call], step.reply.id;
          if key == KeyOf(fork) {
            RetryIsReplayedIff(s.stored, fork, id);
            assert after.log[n] == Sent(key, id);
          } else {
            RecordKeepsAnswers(s.stored, fork, id, key);
          }
        }
      }
    }
  }

  lemma {:induction false} RunKeepsGround(s: State, steps: seq<Step>, end: State)
    requires Inv(s) && Grounded(s) && Run(s, steps, end)
    ensures Grounded(end)
    decreases |steps|
  {
    if steps != [] {
      StepKeeps(s, steps[0]);
      StepKeepsGround(s, steps[0]);
      RunKeepsGround(Next(s, steps[0]), steps[1..], end);
    }
  }

  /** From a store with no readable row, every replayed id is that of an earlier send of the same fork. */
  lemma ReplaysWereSent(initial: Stored, steps: seq<Step>, end: State, i: nat)
    requires Load(initial) == [] && Run(State(initial, map[], []), steps, end)
    requires i < |end.log| && end.log[i].Replayed?
    ensures Sent(end.log[i].key, end.log[i].id) in end.log[..i]
  {
    RunKeepsGround(State(initial, map[], []), steps, end);
  }

  /** Two equal forks on their way at once are both sent. */
  lemma OverlapSendsTwice(stored: Stored, fork: Fork, a: string, b: string)
    requires Answer(stored, KeyOf(fork)).None?
    ensures var begun := Next(Next(State(stored, map[], []), Begin(0, fork)), Begin(1, fork));
      Next(Next(begun, Finish(0, Answered(a))), Finish(1, Answered(b))).log ==
      [Sent(KeyOf(fork), a), Sent(KeyOf(fork), b)]
  {
  }

  /** And where the answer is lost, the retry does send the mail again. */
  lemma LostAnswerSendsTwice(stored: Stored, fork: Fork, id: string) returns (steps: seq<Step>, end: State)
    requires Answer(stored, KeyOf(fork)).None? && Recordable(fork) && id != "" && Fresh(stored, id)
    ensures Run(State(stored, map[], []), steps, end)
    ensures end.log == [Unanswered(KeyOf(fork)), Sent(KeyOf(fork), id)]
  {
    hide Answer, Record, LinkOf, Fresh;
    var a := State(stored, map[], []);
    var b := Next(a, Begin(0, fork));
    var c := Next(b, Finish(0, AnswerLost));
    var d := Next(c, Begin(0, fork));
    end := Next(d, Finish(0, Answered(id)));
    steps := [Begin(0, fork), Finish(0, AnswerLost), Begin(0, fork), Finish(0, Answered(id))];
    assert Run(end, steps[4..], end);
    assert steps[3..][1..] == steps[4..] && Run(d, steps[3..], end);
    assert steps[2..][1..] == steps[3..] && Run(c, steps[2..], end);
    assert steps[1..][1..] == steps[2..] && Run(b, steps[1..], end);
  }

  lemma {:induction false} WithoutConcat(a: seq<Link>, b: seq<Link>, id: string)
    ensures Without(a + b, id) == Without(a, id) + Without(b, id)
  {
    if a == [] {
      assert a + b == b;
    } else {
      assert (a + b)[0] == a[0] && (a + b)[1..] == a[1..] + b;
      WithoutConcat(a[1..], b, id);
    }
  }

  lemma LoadRecordedOver(stored: Stored, link: Link, other: Link)
    requires link.messageId == other.messageId
    ensures Load(Record(Record(stored, link), other)) ==
            Without(Without(Load(stored), link.messageId), link.messageId) + Row(other)
  {
    var id, row := link.messageId, Row(link);
    var kept := Without(Load(stored), id);
    LoadRecorded(stored, link);
    LoadRecorded(Record(stored, link), other);
    hide Record, Load, WellFormed;
    WithoutConcat(kept, row, id);
    assert Without(row, id) == [];
    assert Without(kept, id) + [] == Without(kept, id);
  }

  lemma NoMatchOver(links: seq<Link>, id: string, other: Link, key: Key)
    requires FirstMatch(links, key).None? && !Matches(other, key)
    ensures FirstMatch(Without(Without(links, id), id) + Row(other), key).None?
  {
    hide WellFormed, Matches;
    NoMatchWithout(links, id, key);
    NoMatchWithout(Without(links, id), id, key);
    FirstMatchConcat(Without(Without(links, id), id), Row(other), key);
  }

  /** An id that the hub gives twice forgets the first fork, which is then sent again. */
  lemma RepeatedIdForgets(stored: Stored, first: Fork, second: Fork, id: string)
    requires KeyOf(first) != KeyOf(second) && Answer(stored, KeyOf(first)).None?
    ensures Answer(Record(Record(stored, LinkOf(first, id)), LinkOf(second, id)), KeyOf(first)).None?
  {
    hide Record, Load, WellFormed, Without, FirstMatch, ForkReferences;
    LoadRecordedOver(stored, LinkOf(first, id), LinkOf(second, id));
    NoMatchOver(Load(stored), id, LinkOf(second, id), KeyOf(first));
  }

  /** What is recorded is the mail that was sent: its recipients, subject and body, the parent it replies to, and
      the parent's references, closed by the parent. */
  lemma RecordedAsSent(fork: Fork, id: string)
    ensures var link := LinkOf(fork, id);
      && link.workbenchLocalId == fork.workbenchLocalId && link.messageId == id
      && link.inReplyTo == Some(fork.parentId)
      && link.subject == Some(fork.subject) && link.to == Some(fork.to) && link.body == Some(fork.body)
      && link.references.Some? && fork.references <= link.references.value
      && link.references.value[|fork.references|..] ==
           if fork.references != [] && fork.references[|fork.references| - 1] == fork.parentId then []
           else [fork.parentId]
  {
  }

  /** A row from before recipients or the body were kept matches whatever they are, and a row with them only
      its own. */
  lemma LegacyRowsMatchAny(link: Link, key: Key, to: seq<string>, body: string)
    ensures Matches(link.(to := None), key) <==> Matches(link.(to := Some(key.to)), key)
    ensures Matches(link.(body := None), key) <==> Matches(link.(body := Some(key.body)), key)
    ensures Matches(link.(to := Some(to), body := Some(body)), key) <==>
            Matches(link.(to := None, body := None), key) && to == key.to && body == key.body
    ensures Matches(link, key) ==> link.workbenchLocalId == key.workbenchLocalId &&
                                   link.inReplyTo == Some(key.parentId) && link.subject == Some(key.subject)
  {
  }

  function Count(log: seq<Event>, counts: Event -> bool): nat {
    if log == [] then 0 else Count(log[..|log| - 1], counts) + if counts(log[|log| - 1]) then 1 else 0
  }

  // The mails that the hub accepted, as its own replies have it.
  function Accepted(steps: seq<Step>): nat {
    if steps == [] then 0 else (if steps[0].Finish? && !steps[0].reply.Refused? then 1 else 0) + Accepted(steps[1..])
  }

  /** Every mail that the hub accepted is in the log, and no other: a refused one is not, nor is a replay. */
  lemma {:induction false} MailsAreAccepted(s: State, steps: seq<Step>, end: State)
    requires Run(s, steps, end)
    ensures Count(end.log, IsMail) == Count(s.log, IsMail) + Accepted(steps)
    decreases |steps|
  {
    if steps != [] {
      MailOfStep(s, steps[0]);
      MailsAreAccepted(Next(s, steps[0]), steps[1..], end);
    }
  }

  lemma MailOfStep(s: State, step: Step)
    requires Enabled(s, step)
    ensures Count(Next(s, step).log, IsMail) ==
            Count(s.log, IsMail) + if step.Finish? && !step.reply.Refused? then 1 else 0
  {
    hide Answer, Record, LinkOf, KeyOf;
    var log := Next(s, step).log;
    assert log == s.log || (|log| == |s.log| + 1 && log[..|s.log|] == s.log);
  }
}
