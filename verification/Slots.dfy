// The crash-atomic two-slot record (runtime/ngx_healthcheck_state.c, lines 29-41, 88-150).

module Slots {
  import opened Time
  import opened HealthCounter
  import opened Protocol
  import Delay

  type Words = seq<U64>

  // One shared record in memory: two complete copies, the published word naming the live
  // one (bit 0) and repeating its down state (bit 1), and the lock word with its holder.
  datatype Cell = Cell(slot0: Words, slot1: Words, published: U64, holder: Pid)

  function Live(c: Cell): Words { if c.published % 2 == 0 then c.slot0 else c.slot1 }

  function Spare(c: Cell): Words { if c.published % 2 == 0 then c.slot1 else c.slot0 }

  // What the router reads without taking the lock.
  predicate RoutedDown(c: Cell) { (c.published / 2) % 2 == 1 }

  function WithSpare(c: Cell, k: nat, word: U64): Cell
    requires k < |Spare(c)|
  {
    if c.published % 2 == 0 then c.(slot1 := c.slot1[k := word]) else c.(slot0 := c.slot0[k := word])
  }

  function Flipped(c: Cell, down: bool): Cell {
    c.(published := (1 - c.published % 2) + if down then 2 else 0)
  }

  lemma FlipShows(c: Cell, down: bool)
    ensures Live(Flipped(c, down)) == Spare(c)
    ensures RoutedDown(Flipped(c, down)) == down
    ensures Flipped(c, down).published < 4
  {
  }

  // ---- Words of a record, in the order of its declaration ----

  const RECORD_WORDS: nat := 18
  const REGISTRATION_WORDS: nat := 4

  function PhaseWord(phase: Phase): U64 {
    match phase case Initial => 0 case Waiting => 1 case Preparing => 2 case Inflight => 3
  }

  function WordPhase(word: U64): Phase {
    if word == 0 then Initial else if word == 1 then Waiting else if word == 2 then Preparing else Inflight
  }

  function Flag(b: bool): U64 { if b then 1 else 0 }

  function RecordWords(r: Record): (words: Words)
    ensures |words| == RECORD_WORDS
  {
    var h := r.health;
    [h.accessTime, h.riseCount, h.fallCount, Flag(h.down),
     h.delay.last, h.delay.avg, h.delay.min, h.delay.max, h.delay.total, h.delay.count,
     r.started, r.owner, r.worker, r.instance, r.term, r.round, r.deadline, PhaseWord(r.phase)]
  }

  function Word(words: Words, k: nat): U64 { if k < |words| then words[k] else 0 }

  function WordsRecord(words: Words): Record {
    Record(
      Health(Word(words, 0), Word(words, 1), Word(words, 2), Word(words, 3) != 0,
             Delay.Stats(Word(words, 4), Word(words, 5), Word(words, 6), Word(words, 7), Word(words, 8), Word(words, 9))),
      Word(words, 10), Word(words, 11), Word(words, 12), Word(words, 13), Word(words, 14),
      Word(words, 15), Word(words, 16), WordPhase(Word(words, 17)))
  }

  function RegistrationWords(r: Registration): (words: Words)
    ensures |words| == REGISTRATION_WORDS
  {
    [r.pid, r.instance, r.heartbeat, Flag(r.exiting)]
  }

  function WordsRegistration(words: Words): Registration {
    Registration(Word(words, 0), Word(words, 1), Word(words, 2), Word(words, 3) != 0)
  }

  lemma RecordRoundTrip(r: Record)
    ensures WordsRecord(RecordWords(r)) == r
  {
  }

  lemma RegistrationRoundTrip(r: Registration)
    ensures WordsRegistration(RegistrationWords(r)) == r
  {
  }
}
