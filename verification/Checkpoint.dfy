/**
 The two-slot checkpoint. A slot file is replaced atomically; anything else may happen to one:
 it may be missing, unreadable, hold an envelope that does not check, or make its reader raise an
 error that no handler expects. A digest is as good as what it was computed from. Payloads are JSON
 objects, which survive being written and read.
 */
module Checkpoint {
  import opened Common

  /** `countable`: its progress counters convert to integers, without which no write is attempted. */
  datatype Payload = Payload(body: string, countable: bool)

  datatype Digest = Of(sequence: int, payload: Payload) | Foreign(text: string)

  /**
   `None` for a payload that is not an object. Reading a `Raising` slot ends with an error that is
   none of those caught in io_utils.py:113 and :147: a `sequence` of `Infinity` or 1e400 makes `int`
   raise OverflowError, and a file nested too deeply makes `json.loads` raise RecursionError.
   */
  datatype Slot =
    | Missing
    | Unreadable
    | Raising
    | Envelope(sequence: int, payload: Option<Payload>, checksum: Digest)

  datatype LegacyFile = NoFile | BadJson | NotAnObject | Whole(payload: Payload)

  datatype Entry = Entry(sequence: int, payload: Payload)

  datatype Failure =
    | BadEnvelope | BadPayload | BadChecksum | Uncaught | AllCorrupt | BadLegacy | BadCounter
    | TempFailed | Denied | Died

  const SLOTS := 2
  const RETRIES := 8

  predicate Valid(s: Slot) {
    s.Envelope? && s.sequence > 0 && s.payload.Some? && s.checksum == Of(s.sequence, s.payload.value)
  }

  function Seal(sequence: int, payload: Payload): Slot {
    Envelope(sequence, Some(payload), Of(sequence, payload))
  }

  /** The valid checkpoints, in slot order. */
  function Entries(slots: seq<Slot>): seq<Entry> {
    if slots == [] then []
    else
      var last := slots[|slots| - 1];
      Entries(slots[..|slots| - 1]) + (if Valid(last) then [Entry(last.sequence, last.payload.value)] else [])
  }

  /** The first one with the greatest sequence number. */
  function Latest(es: seq<Entry>): Entry
    requires es != []
  {
    if |es| == 1 then es[0]
    else
      var before := Latest(es[..|es| - 1]);
      if es[|es| - 1].sequence > before.sequence then es[|es| - 1] else before
  }

  function Top(slots: seq<Slot>): int {
    if Entries(slots) == [] then 0 else Latest(Entries(slots)).sequence
  }

  /** io_utils.py:121-129 */
  function FromLegacy(files: seq<LegacyFile>): Result<Option<Payload>, Failure> {
    if files == [] then Ok(None)
    else
      match files[0]
      case NoFile => FromLegacy(files[1..])
      case Whole(p) => Ok(Some(p))
      case _ => Err(BadLegacy)
  }

  predicate Present(slots: seq<Slot>) {
    exists i :: 0 <= i < |slots| && !slots[i].Missing?
  }

  lemma PresentNext(slots: seq<Slot>, s: Slot)
    ensures Present(slots + [s]) <==> Present(slots) || !s.Missing?
  {
    var all := slots + [s];
    assert all[|slots|] == s;
    if Present(slots) {
      var i :| 0 <= i < |slots| && !slots[i].Missing?;
      assert all[i] == slots[i];
    }
    if Present(all) {
      var i :| 0 <= i < |all| && !all[i].Missing?;
      assert i < |slots| ==> slots[i] == all[i];
    }
  }

  predicate Raises(slots: seq<Slot>) {
    exists i :: 0 <= i < |slots| && slots[i].Raising?
  }

  /** What reading gives. */
  function Content(slots: seq<Slot>, files: seq<LegacyFile>): Result<Option<Payload>, Failure> {
    if Raises(slots) then Err(Uncaught)
    else if Entries(slots) != [] then Ok(Some(Latest(Entries(slots)).payload))
    else if Present(slots) then Err(AllCorrupt)
    else FromLegacy(files)
  }

  /** What the disk does to a write. */
  datatype Trouble = NoTrouble | TempFails | Denials(times: nat) | DiesBeforeReplace

  class Directory {
    const slots: array<Slot>
    const legacy: seq<LegacyFile>

    ghost predicate Formed()
      reads this
    {
      slots.Length == SLOTS
    }

    constructor (legacy: seq<LegacyFile>)
      ensures Formed() && slots[..] == [Missing, Missing] && this.legacy == legacy && fresh(slots)
    {
      this.legacy := legacy;
      slots := new Slot[SLOTS](_ => Missing);
      new;
      assert slots[..] == [Missing, Missing];
    }

    /** `_read_checkpoint_slot` on a file that exists. */
    method ReadSlot(i: nat) returns (r: Result<Entry, Failure>)
      requires Formed() && i < SLOTS && !slots[i].Missing?
      ensures r.Ok? <==> var s := slots[i];
                s.Envelope? && s.sequence > 0 && s.payload.Some? && s.checksum == Of(s.sequence, s.payload.value)
      ensures Valid(slots[i]) ==> r == Ok(Entry(slots[i].sequence, slots[i].payload.value))
      ensures !Valid(slots[i]) ==> r.Err?
      ensures r == Err(Uncaught) <==> slots[i].Raising?
    {
      var s := slots[i];
      if s.Raising? {
        return Err(Uncaught);
      }
      if s.Unreadable? {
        return Err(BadEnvelope);
      }
      if s.sequence <= 0 || s.payload.None? {
        return Err(BadPayload);
      }
      if s.checksum != Of(s.sequence, s.payload.value) {
        return Err(BadChecksum);
      }
      return Ok(Entry(s.sequence, s.payload.value));
    }

    /** The loop that both reading and writing start with; an error that is not caught ends it. */
    method Scan() returns (raised: bool, valid: seq<Entry>, present: bool)
      requires Formed()
      ensures raised == Raises(slots[..])
      ensures !raised ==> valid == Entries(slots[..]) && present == Present(slots[..])
    {
      raised, valid, present := false, [], false;
      var i := 0;
      while i < SLOTS
        invariant 0 <= i <= SLOTS && valid == Entries(slots[..i]) && present == Present(slots[..i])
        invariant !raised && forall k :: 0 <= k < i ==> !slots[k].Raising?
      {
        assert slots[..i + 1][..i] == slots[..i] && slots[..i + 1] == slots[..i] + [slots[i]];
        PresentNext(slots[..i], slots[i]);
        if !slots[i].Missing? {
          present := true;
          var r := ReadSlot(i);
          if r == Err(Uncaught) {
            raised := true;
            assert slots[..][i].Raising?;
            return;
          }
          if r.Ok? {
            valid := valid + [r.value];
          }
        }
        i := i + 1;
      }
      assert slots[..SLOTS] == slots[..];
    }

    method Newest(es: seq<Entry>) returns (e: Entry)
      requires es != []
      ensures e == Latest(es)
    {
      e := es[0];
      var k := 1;
      assert es[..1] == [es[0]];
      while k < |es|
        invariant 1 <= k <= |es| && e == Latest(es[..k])
      {
        assert es[..k + 1][..k] == es[..k];
        if es[k].sequence > e.sequence {
          e := es[k];
        }
        k := k + 1;
      }
      assert es[..k] == es;
    }

    /** `read_ab_checkpoint` */
    method Read() returns (r: Result<Option<Payload>, Failure>)
      requires Formed()
      ensures r == Content(slots[..], legacy)
    {
      var raised, valid, present := Scan();
      if raised {
        return Err(Uncaught);
      }
      if valid != [] {
        var newest := Newest(valid);
        return Ok(Some(newest.payload));
      }
      if present {
        return Err(AllCorrupt);
      }
      var k := 0;
      while k < |legacy|
        invariant 0 <= k <= |legacy| && FromLegacy(legacy) == FromLegacy(legacy[k..])
        decreases |legacy| - k
      {
        if legacy[k].Whole? {
          return Ok(Some(legacy[k].payload));
        }
        if !legacy[k].NoFile? {
          return Err(BadLegacy);
        }
        k := k + 1;
      }
      return Ok(None);
    }

    /** The retry loop of `atomic_write_json`: the file is replaced unless every attempt is denied. */
    method Replace(i: nat, content: Slot, retries: int, trouble: Trouble) returns (r: Result<(), Failure>)
      requires Formed() && i < SLOTS
      modifies slots
      ensures var tries := if retries < 1 then 1 else retries;
        r.Ok? <==> trouble.NoTrouble? || (trouble.Denials? && trouble.times < tries)
      ensures r != Err(Uncaught)
      ensures slots[..] == if r.Ok? then old(slots[..])[i := content] else old(slots[..])
    {
      if trouble.TempFails? {
        return Err(TempFailed);
      }
      var attempts := if retries < 1 then 1 else retries;
      var attempt := 0;
      while attempt < attempts
        invariant 0 <= attempt <= attempts && slots[..] == old(slots[..])
        invariant attempt > 0 ==> trouble.Denials? && trouble.times >= attempt
        invariant attempt < attempts
        decreases attempts - attempt
      {
        if trouble.DiesBeforeReplace? {
          return Err(Died);
        }
        if !(trouble.Denials? && trouble.times > attempt) {
          slots[i] := content;
          return Ok(());
        }
        if attempt >= attempts - 1 {
          return Err(Denied);
        }
        attempt := attempt + 1;
      }
      assert false;
    }

    /** `write_ab_checkpoint` */
    method Write(payload: Payload, trouble: Trouble) returns (r: Result<nat, Failure>)
      requires Formed()
      modifies slots
      ensures r == Err(Uncaught) <==> Raises(old(slots[..]))
      ensures r.Ok? <==> !Raises(old(slots[..])) && payload.countable
                         && (trouble.NoTrouble? || (trouble.Denials? && trouble.times < 8))
      ensures r.Ok? ==> r.value == Top(old(slots[..])) % SLOTS
      ensures slots[..] == if r.Ok? then Written(old(slots[..]), payload) else old(slots[..])
    {
      var raised, valid, present := Scan();
      if raised {
        return Err(Uncaught);
      }
      var sequence := 1;
      if valid != [] {
        var newest := Newest(valid);
        sequence := newest.sequence + 1;
      }
      var target := (sequence - 1) % SLOTS;
      if !payload.countable {
        return Err(BadCounter);
      }
      var done := Replace(target, Seal(sequence, payload), RETRIES, trouble);
      if done.Err? {
        return Err(done.error);
      }
      return Ok(target);
    }
  }

  /** The slots after a successful write. */
  function Written(slots: seq<Slot>, payload: Payload): seq<Slot>
    requires |slots| == SLOTS
  {
    slots[Top(slots) % SLOTS := Seal(Top(slots) + 1, payload)]
  }

  // ----- What the two slots guarantee -----

  /** A valid checkpoint stands in the slot of its own parity. */
  predicate Alternating(slots: seq<Slot>) {
    |slots| == SLOTS && forall i :: 0 <= i < SLOTS && Valid(slots[i]) ==> (slots[i].sequence - 1) % SLOTS == i
  }

  /** Reading and the next sequence number told by the two slots themselves. */
  lemma TwoSlots(slots: seq<Slot>)
    requires |slots| == SLOTS
    ensures Entries(slots) != [] <==> Valid(slots[0]) || Valid(slots[1])
    ensures Valid(slots[0]) && (!Valid(slots[1]) || slots[0].sequence >= slots[1].sequence) ==>
              Latest(Entries(slots)) == Entry(slots[0].sequence, slots[0].payload.value)
    ensures Valid(slots[1]) && (!Valid(slots[0]) || slots[1].sequence > slots[0].sequence) ==>
              Latest(Entries(slots)) == Entry(slots[1].sequence, slots[1].payload.value)
  {
    assert slots[..1] == [slots[0]] && slots[..1][..0] == [];
    assert Entries(slots[..1]) == if Valid(slots[0]) then [Entry(slots[0].sequence, slots[0].payload.value)] else [];
    var es := Entries(slots);
    if Valid(slots[0]) && Valid(slots[1]) {
      assert es[..1] == [es[0]];
    }
  }

  /** Reading, told by the files: an error that is not caught, the newer valid slot, an error, the older formats. */
  lemma ReadingMeans(slots: seq<Slot>, files: seq<LegacyFile>)
    requires |slots| == 2 && |files| == 2
    ensures var r := Content(slots, files);
      if slots[0].Raising? || slots[1].Raising? then r == Err(Uncaught)
      else if Valid(slots[0]) && (!Valid(slots[1]) || slots[0].sequence >= slots[1].sequence) then
        r == Ok(Some(slots[0].payload.value))
      else if Valid(slots[1]) then r == Ok(Some(slots[1].payload.value))
      else if slots != [Missing, Missing] then r == Err(AllCorrupt)
      else if files[0].Whole? then r == Ok(Some(files[0].payload))
      else if files[0] != NoFile then r == Err(BadLegacy)
      else if files[1].Whole? then r == Ok(Some(files[1].payload))
      else if files[1] != NoFile then r == Err(BadLegacy)
      else r == Ok(None)
  {
    TwoSlots(slots);
    assert slots == [slots[0], slots[1]];
    assert Present(slots) <==> !slots[0].Missing? || !slots[1].Missing?;
    var rest := files[1..];
    assert rest[0] == files[1] && rest[1..] == [];
    assert FromLegacy(rest[1..]) == Ok(None);
    assert files[0] == NoFile ==> FromLegacy(files) == FromLegacy(rest);
  }

  /** Writing, told by the files: the first checkpoint goes to the first slot, later ones to the slot of the older. */
  lemma WritingMeans(slots: seq<Slot>, p: Payload)
    requires |slots| == 2
    ensures var r := Written(slots, p);
      if Valid(slots[0]) && (!Valid(slots[1]) || slots[0].sequence >= slots[1].sequence) then
        var n := slots[0].sequence; r == slots[n % 2 := Envelope(n + 1, Some(p), Of(n + 1, p))]
      else if Valid(slots[1]) then
        var n := slots[1].sequence; r == slots[n % 2 := Envelope(n + 1, Some(p), Of(n + 1, p))]
      else r == [Envelope(1, Some(p), Of(1, p)), slots[1]]
  {
    TwoSlots(slots);
  }

  /** A write keeps the parity, and the slot it replaces is not the one that holds the newest valid checkpoint. */
  lemma WriteAlternates(slots: seq<Slot>, payload: Payload)
    requires Alternating(slots)
    ensures Alternating(Written(slots, payload))
    ensures Entries(slots) != [] ==>
              !(Valid(slots[Top(slots) % SLOTS]) && slots[Top(slots) % SLOTS].sequence == Top(slots))
    ensures Top(Written(slots, payload)) == Top(slots) + 1
  {
    TwoSlots(slots);
    TwoSlots(Written(slots, payload));
  }

  lemma ReadAfterWrite(slots: seq<Slot>, payload: Payload, files: seq<LegacyFile>)
    requires Alternating(slots) && !Raises(slots)
    ensures Content(Written(slots, payload), files) == Ok(Some(payload))
  {
    TwoSlots(slots);
    TwoSlots(Written(slots, payload));
  }

  /**
   The slot just written goes bad while its file stays: reading gives what it gave before the
   write if and only if there was a slot file before, valid or not, and the bad one does not make
   its reader raise. Over no slot file at all a legacy checkpoint, or none, turns into an error.
   */
  lemma BadNewSlot(slots: seq<Slot>, payload: Payload, bad: Slot, files: seq<LegacyFile>)
    requires Alternating(slots) && !Raises(slots) && !bad.Missing? && !Valid(bad)
    ensures var after := Written(slots, payload)[Top(slots) % SLOTS := bad];
      Alternating(after)
        && (Content(after, files) == Content(slots, files) <==> Present(slots) && !bad.Raising?)
  {
    var after := Written(slots, payload)[Top(slots) % SLOTS := bad];
    TwoSlots(slots);
    TwoSlots(after);
    assert !after[Top(slots) % SLOTS].Missing?;
    assert bad.Raising? ==> after[Top(slots) % SLOTS].Raising?;
    LegacyNeverCorruptSlots(files);
  }

  /**
   What a slot of that form does: although the other slot is valid, reading raises, and so does every
   later write, so that the slot is never replaced.
   */
  lemma {:induction false} RaisingSlotBlocks(slots: seq<Slot>, bad: nat, es: seq<Event>, files: seq<LegacyFile>)
    requires |slots| == SLOTS && bad < SLOTS && slots[bad].Raising? && AllFit(es)
    requires forall k :: 0 <= k < |es| ==> !es[k].Spoil?
    ensures After(slots, es) == slots && Content(After(slots, es), files) == Err(Uncaught)
    decreases |es|
  {
    assert Raises(slots);
    if es != [] {
      RaisingSlotBlocks(slots, bad, es[1..], files);
    }
  }

  lemma {:induction false} LegacyNeverCorruptSlots(files: seq<LegacyFile>)
    ensures FromLegacy(files) != Err(AllCorrupt) && FromLegacy(files) != Err(Uncaught)
  {
    if files != [] {
      LegacyNeverCorruptSlots(files[1..]);
    }
  }

  // ----- Whole runs -----

  /** What can happen to the directory between two reads: a spoilt slot file stays in place, and a save may raise. */
  datatype Event = Save(payload: Payload) | Lost(trouble: Trouble) | Spoil(slot: nat, how: Slot)

  predicate Fits(e: Event) {
    e.Spoil? ==> e.slot < SLOTS && !Valid(e.how) && !e.how.Missing?
  }

  predicate AllFit(es: seq<Event>) {
    forall k :: 0 <= k < |es| ==> Fits(es[k])
  }

  function Happens(slots: seq<Slot>, e: Event): (r: seq<Slot>)
    requires |slots| == SLOTS && Fits(e)
    ensures |r| == SLOTS
  {
    match e
    case Save(p) => if Raises(slots) then slots else Written(slots, p)
    case Lost(_) => slots
    case Spoil(i, how) => slots[i := how]
  }

  function After(slots: seq<Slot>, es: seq<Event>): (r: seq<Slot>)
    requires |slots| == SLOTS && AllFit(es)
    ensures |r| == SLOTS
    decreases |es|
  {
    if es == [] then slots else After(Happens(slots, es[0]), es[1..])
  }

  lemma {:induction false} RunKeepsParity(slots: seq<Slot>, es: seq<Event>)
    requires Alternating(slots) && AllFit(es)
    ensures Alternating(After(slots, es))
    decreases |es|
  {
    if es != [] {
      if es[0].Save? {
        WriteAlternates(slots, es[0].payload);
      }
      RunKeepsParity(Happens(slots, es[0]), es[1..]);
    }
  }

  lemma {:induction false} AfterBoth(slots: seq<Slot>, es: seq<Event>, more: seq<Event>)
    requires |slots| == SLOTS && AllFit(es) && AllFit(more)
    ensures AllFit(es + more) && After(slots, es + more) == After(After(slots, es), more)
    decreases |es|
  {
    if es == [] {
      assert es + more == more;
    } else {
      AfterBoth(Happens(slots, es[0]), es[1..], more);
      assert (es + more)[1..] == es[1..] + more;
    }
  }

  lemma SaveFirst(slots: seq<Slot>, p: Payload, rest: seq<Event>)
    requires |slots| == SLOTS && !Raises(slots) && AllFit(rest)
    ensures |Written(slots, p)| == SLOTS && AllFit([Save(p)] + rest)
    ensures After(slots, [Save(p)] + rest) == After(Written(slots, p), rest)
  {
    assert ([Save(p)] + rest)[1..] == rest;
  }

  /** Nothing is saved, and at most slot `bad` is spoilt. */
  predicate OnlySpoils(es: seq<Event>, bad: nat) {
    forall k :: 0 <= k < |es| ==> !es[k].Save? && (es[k].Spoil? ==> es[k].slot == bad)
  }

  predicate Spoilt(es: seq<Event>) {
    exists k :: 0 <= k < |es| && es[k].Spoil?
  }

  lemma SpoiltFirst(es: seq<Event>)
    requires es != []
    ensures Spoilt(es) <==> es[0].Spoil? || Spoilt(es[1..])
  {
    if Spoilt(es[1..]) {
      var k :| 0 <= k < |es[1..]| && es[1..][k].Spoil?;
      assert es[k + 1].Spoil?;
    }
    if Spoilt(es) && !es[0].Spoil? {
      var k :| 0 <= k < |es| && es[k].Spoil?;
      assert es[1..][k - 1].Spoil?;
    }
  }

  lemma {:induction false} SpoilsOneSlot(slots: seq<Slot>, es: seq<Event>, bad: nat)
    requires |slots| == SLOTS && AllFit(es) && OnlySpoils(es, bad) && bad < SLOTS
    ensures var r := After(slots, es);
      (forall i :: 0 <= i < SLOTS && i != bad ==> r[i] == slots[i])
      && (if Spoilt(es) then !Valid(r[bad]) else r == slots)
    decreases |es|
  {
    if es != [] {
      SpoilsOneSlot(Happens(slots, es[0]), es[1..], bad);
      SpoiltFirst(es);
    }
  }

  lemma WritingNeverRaises(slots: seq<Slot>, p: Payload)
    requires |slots| == SLOTS && !Raises(slots)
    ensures !Raises(Written(slots, p))
  {
  }

  lemma OnlyOneRaises(before: seq<Slot>, slots: seq<Slot>, bad: nat)
    requires |slots| == |before| == SLOTS && bad < SLOTS && !Raises(before)
    requires forall i :: 0 <= i < SLOTS && i != bad ==> slots[i] == before[i]
    ensures Raises(slots) <==> slots[bad].Raising?
  {
  }

  /** Two saves, and then at most one bad slot. */
  lemma TwoSaves(s: seq<Slot>, p: Payload, q: Payload, later: seq<Event>, bad: nat, files: seq<LegacyFile>)
    requires Alternating(s) && !Raises(s) && AllFit(later) && OnlySpoils(later, bad) && bad < SLOTS
    ensures var one := Written(s, p); var end := After(Written(one, q), later);
      Content(end, files) ==
        if end[bad].Raising? then Err(Uncaught)
        else Ok(Some(if Spoilt(later) && bad == Top(one) % SLOTS then p else q))
  {
    hide After, Spoilt, OnlySpoils, AllFit, Top, Entries, Latest, Raises;
    WritingNeverRaises(s, p);
    WritingNeverRaises(Written(s, p), q);
    var one := Written(s, p);
    var two := Written(one, q);
    LastTwo(s, p, q);
    SpoilsOneSlot(two, later, bad);
    OnlyOneRaises(two, After(two, later), bad);
    NewestOfTwo(After(two, later), Top(s) % SLOTS, Top(one) % SLOTS, Top(s) + 1, p, q);
  }

  /** After two saves the slots hold the two payloads under consecutive numbers. */
  lemma LastTwo(s: seq<Slot>, p: Payload, q: Payload)
    requires Alternating(s)
    ensures var one := Written(s, p); var two := Written(one, q);
      && Top(s) >= 0 && |two| == SLOTS && Top(s) % SLOTS != Top(one) % SLOTS
      && two[Top(s) % SLOTS] == Seal(Top(s) + 1, p) && two[Top(one) % SLOTS] == Seal(Top(s) + 2, q)
  {
    WriteAlternates(s, p);
    TwoSlots(s);
  }

  /** Slots that hold two consecutive checkpoints, of which one may have gone bad. */
  lemma NewestOfTwo(slots: seq<Slot>, older: nat, newer: nat, n: int, p: Payload, q: Payload)
    requires |slots| == SLOTS && older < SLOTS && newer < SLOTS && older != newer && n > 0
    requires slots[older] == Seal(n, p) || !Valid(slots[older])
    requires slots[newer] == Seal(n + 1, q) || !Valid(slots[newer])
    requires slots[older] == Seal(n, p) || slots[newer] == Seal(n + 1, q)
    ensures Entries(slots) != []
    ensures Latest(Entries(slots)).payload == if slots[newer] == Seal(n + 1, q) then q else p
  {
    TwoSlots(slots);
  }

  /**
   Whatever happened before, once two checkpoints have been saved one bad slot loses no more than
   the newest of them: reading gives the older one exactly when the newer one's slot is the bad one.
   That is so if and only if the bad slot is not one that makes its reader raise.
   */
  lemma OneBadSlotIsSurvived(slots: seq<Slot>, before: seq<Event>, p: Payload, q: Payload, later: seq<Event>, bad: nat,
                             files: seq<LegacyFile>)
    requires Alternating(slots) && AllFit(before) && AllFit(later) && OnlySpoils(later, bad) && bad < SLOTS
    requires !Raises(After(slots, before))
    ensures var run := before + ([Save(p)] + ([Save(q)] + later));
      var newest := Top(After(slots, before + [Save(p)])) % SLOTS;
      && AllFit(run)
      && Content(After(slots, run), files) ==
         if After(slots, run)[bad].Raising? then Err(Uncaught)
         else Ok(Some(if Spoilt(later) && bad == newest then p else q))
  {
    hide Content, Top, Spoilt, Raises;
    RunKeepsParity(slots, before);
    var s := After(slots, before);
    WritingNeverRaises(s, p);
    SaveFirst(Written(s, p), q, later);
    SaveFirst(s, p, [Save(q)] + later);
    AfterBoth(slots, before, [Save(p)] + ([Save(q)] + later));
    assert [Save(p)] + [] == [Save(p)];
    SaveFirst(s, p, []);
    AfterBoth(slots, before, [Save(p)]);
    TwoSaves(s, p, q, later, bad, files);
  }
}
