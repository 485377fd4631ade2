/** The ticket store: a bucket of tickets keyed by the big-endian bytes of their
    ids, with the bucket's sequence counter handing out the ids. The bucket's
    values are held as tickets; encoding them to JSON and back is taken to be the
    identity. */
module Store {
  import opened GoInts
  import opened Tickets

  // ---------------------------------------------------------------------------
  // Keys: itob

  type Key = seq<Byte>

  function Pow256(n: nat): (p: nat)
    ensures 0 < p
  {
    if n == 0 then 1 else 256 * Pow256(n - 1)
  }

  /** The last n base-256 digits of u, most significant first. */
  function BigEndianBytes(u: nat, n: nat): (b: seq<Byte>)
    ensures |b| == n
  {
    if n == 0 then [] else BigEndianBytes(u / 256, n - 1) + [u % 256]
  }

  /** The number that a big-endian byte string denotes. */
  function BigEndianValue(b: seq<Byte>): nat
  {
    if b == [] then 0 else BigEndianValue(b[..|b| - 1]) * 256 + b[|b| - 1]
  }

  /** Reading back n big-endian digits of a number below 256^n gives the number. */
  lemma {:induction false} BigEndianRoundTrip(u: nat, n: nat)
    requires u < Pow256(n)
    ensures BigEndianValue(BigEndianBytes(u, n)) == u
  {
    if n > 0 {
      var b := BigEndianBytes(u, n);
      assert b[..|b| - 1] == BigEndianBytes(u / 256, n - 1);
      BigEndianRoundTrip(u / 256, n - 1);
    }
  }

  /** `u >> (8 * k)`: k byte-wide right shifts. */
  function ShiftBytes(u: nat, k: nat): nat
  {
    if k == 0 then u else ShiftBytes(u / 256, k - 1)
  }

  /** Digit i of the big-endian form is the byte taken after shifting right by
      8 * (n - 1 - i) bits. */
  lemma {:induction false} BigEndianDigit(u: nat, n: nat, i: nat)
    requires i < n
    ensures BigEndianBytes(u, n)[i] == ShiftBytes(u, n - 1 - i) % 256
  {
    if i < n - 1 {
      BigEndianDigit(u / 256, n - 1, i);
    }
  }

  lemma Pow256Eight()
    ensures Pow256(8) == TwoTo64
  {
    assert Pow256(2) == 0x1_0000;
    assert Pow256(4) == 0x1_0000_0000;
    assert Pow256(6) == 0x1_0000_0000_0000;
  }

  /** itob: the key of ticket v, the 8 bytes of `uint64(v)` most significant
      first. */
  function Itob(v: Int64): (b: Key)
    ensures |b| == 8
    ensures BigEndianValue(b) == Uint64Of(v)
  {
    Pow256Eight();
    BigEndianRoundTrip(Uint64Of(v), 8);
    BigEndianBytes(Uint64Of(v), 8)
  }

  /** Byte i of the key is `byte(uint64(v) >> (56 - 8 * i))`, as PutUint64
      writes it. */
  lemma ItobShifts(v: Int64, i: nat)
    requires i < 8
    ensures Itob(v)[i] == ShiftBytes(Uint64Of(v), 7 - i) % 256
  {
    BigEndianDigit(Uint64Of(v), 8, i);
  }

  /** Distinct ids have distinct keys. */
  lemma ItobInjective(a: Int64, b: Int64)
    requires Itob(a) == Itob(b)
    ensures a == b
  {
    Int64RoundTrip(a);
    Int64RoundTrip(b);
  }

  // ---------------------------------------------------------------------------
  // The bucket's contents

  /** The ticket Find starts from, which a missing entry leaves in place. */
  const ZeroTicket: Ticket := Ticket(0, ZeroTime, ZeroTime, 0, "")

  /** How far Create backdates a new ticket's time in: 350 minutes. */
  const Backdate: int := 350 * Minute

  datatype FindResult = Found(ticket: Ticket) | NotFound(id: Int64)

  /** Find's outcome for id: the stored ticket when there is one whose id is not
      zero, otherwise the not-found error carrying the id asked for. */
  function Lookup(entries: map<Key, Ticket>, id: Int64): FindResult
  {
    if Itob(id) in entries && entries[Itob(id)].id != 0 then Found(entries[Itob(id)])
    else NotFound(id)
  }

  /** Every entry sits at the key of its own ticket's id, as Save stores it. */
  ghost predicate KeysMatch(entries: map<Key, Ticket>)
  {
    forall k :: k in entries ==> k == Itob(entries[k].id)
  }

  /** Every key decodes to a sequence value already handed out. */
  ghost predicate IssuedOnly(entries: map<Key, Ticket>, sequence: Uint64)
  {
    forall k :: k in entries ==> 1 <= BigEndianValue(k) <= sequence
  }

  /** The bucket's NextSequence: `sequence++` on a uint64. */
  function NextSequence(sequence: Uint64): (next: Uint64)
    ensures next == (sequence + 1) % TwoTo64
  {
    if sequence == MaxUint64 then 0 else sequence + 1
  }

  /** The ticket Create issues under id at clock reading now. */
  function NewTicket(id: Int64, now: Time): Ticket
  {
    Ticket(id, now - Backdate, ZeroTime, 0, "")
  }

  /** The ticket Pay saves: the charge at `now` and the card recorded, all else
      kept. */
  function Settle(t: Ticket, card: string, now: Time): (r: Ticket)
    ensures r.id == t.id && r.timeIn == t.timeIn && r.timePaid == t.timePaid
    ensures r.paid == CalculateOwing(t, now) && 0 < r.paid && r.card == card
  {
    t.(paid := CalculateOwing(t, now), card := card)
  }

  datatype PayResult = Settled(ticket: Ticket) | Panicked(id: Int64)

  // ---------------------------------------------------------------------------
  // Properties of the bucket operations

  /** A ticket found under id carries that id, when every entry sits at its own
      key. */
  lemma FoundCarriesId(entries: map<Key, Ticket>, id: Int64)
    requires KeysMatch(entries)
    ensures Lookup(entries, id).Found? ==> Lookup(entries, id).ticket.id == id
  {
    if Itob(id) in entries {
      ItobInjective(entries[Itob(id)].id, id);
    }
  }

  /** Id 0 is never found: its entry, if any, holds a ticket of id 0. */
  lemma ZeroNeverFound(entries: map<Key, Ticket>)
    requires KeysMatch(entries)
    ensures Lookup(entries, 0).NotFound?
  {
    FoundCarriesId(entries, 0);
  }

  /** Find after Save returns the saved ticket, when its id is not zero. */
  lemma FindAfterSave(entries: map<Key, Ticket>, t: Ticket)
    requires t.id != 0
    ensures Lookup(entries[Itob(t.id) := t], t.id) == Found(t)
  {
  }

  /** Save leaves what Find reports for every other id unchanged. */
  lemma SaveLeavesOthers(entries: map<Key, Ticket>, t: Ticket, id: Int64)
    requires id != t.id
    ensures Lookup(entries[Itob(t.id) := t], id) == Lookup(entries, id)
  {
    if Itob(id) == Itob(t.id) {
      ItobInjective(id, t.id);
    }
  }

  /** Saving the same ticket twice leaves the state of saving it once. */
  lemma SaveIdempotent(entries: map<Key, Ticket>, t: Ticket)
    ensures entries[Itob(t.id) := t][Itob(t.id) := t] == entries[Itob(t.id) := t]
  {
  }

  /** The id Create takes next has no entry yet, and storing its ticket keeps
      every key among the values handed out, as long as the counter has not
      reached its last value. */
  lemma CreateKeyFresh(entries: map<Key, Ticket>, sequence: Uint64, now: Time)
    requires IssuedOnly(entries, sequence) && sequence < MaxUint64
    ensures Itob(Int64Of(NextSequence(sequence))) !in entries
    ensures IssuedOnly(entries[Itob(Int64Of(NextSequence(sequence))) := NewTicket(Int64Of(NextSequence(sequence)), now)],
                       NextSequence(sequence))
  {
    var next := NextSequence(sequence);
    assert BigEndianValue(Itob(Int64Of(next))) == next;
  }

  /** A ticket just created owes the two-increase amount at once: the 350-minute
      backdate puts it between three and six hours. */
  lemma NewTicketOwing(id: Int64, now: Time)
    ensures CalculateOwing(NewTicket(id, now), now) == 675
  {
    OwingTiers(Backdate);
  }

  /** Find after Pay returns the settled ticket. */
  lemma FindAfterPay(entries: map<Key, Ticket>, id: Int64, card: string, now: Time)
    requires Lookup(entries, id).Found?
    ensures var t := Settle(Lookup(entries, id).ticket, card, now);
            Lookup(entries[Itob(id) := t], id) == Found(t)
  {
  }

  /** Pay keeps every key among the values handed out: it only rewrites an
      existing entry. */
  lemma PayKeepsIssued(entries: map<Key, Ticket>, sequence: Uint64, id: Int64, t: Ticket)
    requires IssuedOnly(entries, sequence) && Lookup(entries, id).Found?
    ensures IssuedOnly(entries[Itob(id) := t], sequence)
  {
    assert entries[Itob(id) := t].Keys == entries.Keys;
  }

  /** Paying an already paid ticket is not refused: the second payment replaces
      the first one's amount and card as if it had not happened. */
  lemma RepayOverwrites(t: Ticket, card1: string, now1: Time, card2: string, now2: Time)
    ensures Settle(Settle(t, card1, now1), card2, now2) == Settle(t, card2, now2)
  {
  }

  // ---------------------------------------------------------------------------
  // The store

  class TicketStore {
    /** The "Tickets" bucket. */
    var entries: map<Key, Ticket>
    /** The bucket's sequence counter. */
    var sequence: Uint64

    ghost predicate Valid()
      reads this
    {
      KeysMatch(entries)
    }

    /** A store over a newly created, empty bucket. */
    constructor ()
      ensures Valid() && entries == map[] && sequence == 0
      ensures IssuedOnly(entries, sequence)
    {
      entries := map[];
      sequence := 0;
    }

    /** Create: takes the next sequence value as the id, backdates the time in
        by 350 minutes and stores the ticket under the id's key. */
    method Create(now: Time) returns (t: Ticket)
      requires Valid()
      modifies this
      ensures Valid()
      ensures sequence == NextSequence(old(sequence)) && t.id == Int64Of(sequence)
      ensures t.timeIn == now - 350 * Minute && t.timePaid == ZeroTime && t.paid == 0 && t.card == ""
      ensures entries == old(entries)[Itob(t.id) := t]
      ensures old(sequence) < MaxInt64 ==> old(sequence) < t.id == sequence
      ensures old(sequence) < MaxUint64 ==> Lookup(entries, t.id) == Found(t)
      ensures old(sequence) < MaxUint64 && old(IssuedOnly(entries, sequence)) ==>
                Itob(t.id) !in old(entries) && IssuedOnly(entries, sequence)
    {
      var timeIn := now - Backdate;
      if sequence < MaxUint64 && IssuedOnly(entries, sequence) {
        CreateKeyFresh(entries, sequence, now);
      }
      sequence := NextSequence(sequence);
      t := Ticket(Int64Of(sequence), timeIn, ZeroTime, 0, "");
      entries := entries[Itob(t.id) := t];
    }

    /** Find: reads the entry under the id's key into a zero ticket; an id of
        zero afterwards means not found. */
    method Find(id: Int64) returns (r: FindResult)
      ensures r == Lookup(entries, id)
    {
      var ticket := ZeroTicket;
      var key := Itob(id);
      if key in entries {
        ticket := entries[key];
      }
      if ticket.id == 0 {
        r := NotFound(id);
      } else {
        r := Found(ticket);
      }
    }

    /** Save: overwrites the entry under the ticket's key, whatever was there. */
    method Save(t: Ticket)
      requires Valid()
      modifies this
      ensures Valid()
      ensures entries == old(entries)[Itob(t.id) := t] && sequence == old(sequence)
    {
      entries := entries[Itob(t.id) := t];
    }

    /** Pay: finds the ticket, records the charge at `now` and the card, and
        saves it. A ticket that cannot be found makes the call panic, leaving
        the store as it was. */
    method Pay(id: Int64, card: string, now: Time) returns (r: PayResult)
      requires Valid()
      modifies this
      ensures Valid() && sequence == old(sequence)
      ensures match old(Lookup(entries, id))
                case Found(t) =>
                  r == Settled(Settle(t, card, now)) && entries == old(entries)[Itob(id) := r.ticket]
                case NotFound(_) =>
                  r == Panicked(id) && entries == old(entries)
    {
      var found := Find(id);
      if found.NotFound? {
        r := Panicked(id);
        return;
      }
      FoundCarriesId(entries, id);
      var t := found.ticket;
      t := t.(paid := CalculateOwing(t, now));
      t := t.(card := card);
      Save(t);
      r := Settled(t);
    }
  }
}
