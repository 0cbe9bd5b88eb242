/** `find_seed`: the first slot at or after a target, read from the bytes of the SlotHashes sysvar. */
module SlotHashes {
  import opened Terms

  newtype byte = x: int | 0 <= x < 256

  const ENTRY_LEN := 40

  datatype SlotHash = SlotHash(slot: u64, hash: seq<byte>)

  datatype SeedLookup = Found(slot: u64, hash: seq<byte>) | NotYet | Expired

  function LittleEndian(bytes: seq<byte>): nat {
    if bytes == [] then 0 else bytes[0] as nat + 256 * LittleEndian(bytes[1..])
  }

  function ToBytes(value: nat, n: nat): (bytes: seq<byte>)
    ensures |bytes| == n
    decreases n
  {
    if n == 0 then [] else [(value % 256) as byte] + ToBytes(value / 256, n - 1)
  }

  function Power256(n: nat): (p: nat)
    ensures p >= 1
  {
    if n == 0 then 1 else 256 * Power256(n - 1)
  }

  lemma {:induction false} LittleEndianBelow(bytes: seq<byte>)
    ensures LittleEndian(bytes) < Power256(|bytes|)
  {
    if bytes != [] {
      LittleEndianBelow(bytes[1..]);
    }
  }

  lemma {:induction false} EightBytes()
    ensures Power256(8) == U64_MAX + 1
  {
    assert Power256(4) == 0x1_0000_0000;
    assert Power256(8) == 0x1_0000_0000 * Power256(4);
  }

  lemma {:induction false} BytesBack(value: nat, n: nat)
    requires value < Power256(n)
    ensures LittleEndian(ToBytes(value, n)) == value
    decreases n
  {
    if n > 0 {
      BytesBack(value / 256, n - 1);
      assert ToBytes(value, n)[1..] == ToBytes(value / 256, n - 1);
    }
  }

  function ReadU64(data: seq<byte>, at: nat): u64
    requires at + 8 <= |data|
  {
    LittleEndianBelow(data[at..at + 8]);
    EightBytes();
    LittleEndian(data[at..at + 8])
  }

  function SlotAt(data: seq<byte>, i: nat): u64
    requires 8 + (i + 1) * ENTRY_LEN <= |data|
  {
    ReadU64(data, 8 + i * ENTRY_LEN)
  }

  function HashAt(data: seq<byte>, i: nat): seq<byte>
    requires 8 + (i + 1) * ENTRY_LEN <= |data|
  {
    data[16 + i * ENTRY_LEN..8 + (i + 1) * ENTRY_LEN]
  }

  /** The entries, or None for data the program refuses. */
  function Parse(data: seq<byte>): Option<seq<SlotHash>> {
    if |data| < 8 then None
    else
      var count := ReadU64(data, 0);
      if count * ENTRY_LEN + 8 > U64_MAX || |data| < count * ENTRY_LEN + 8 then None
      else Some(seq(count, i requires 0 <= i < count => SlotHash(SlotAt(data, i), HashAt(data, i))))
  }

  /** The scan from entry `i` on, whose predecessor is at or after the target. */
  function Scan(entries: seq<SlotHash>, target: u64, i: nat): SeedLookup
    requires 1 <= i <= |entries|
    decreases |entries| - i
  {
    if i == |entries| then
      if entries[i - 1].slot == target then Found(target, entries[i - 1].hash) else Expired
    else if entries[i].slot < target then Found(entries[i - 1].slot, entries[i - 1].hash)
    else Scan(entries, target, i + 1)
  }

  function Lookup(entries: seq<SlotHash>, target: u64): SeedLookup {
    if entries == [] || entries[0].slot < target then NotYet else Scan(entries, target, 1)
  }

  function FindSeed(data: seq<byte>, target: u64): Option<SeedLookup> {
    match Parse(data)
    case None => None
    case Some(entries) => Some(Lookup(entries, target))
  }

  /** The scan itself, over the bytes. */
  method FindSeedInBytes(data: seq<byte>, target: u64) returns (result: Option<SeedLookup>)
    ensures result == FindSeed(data, target)
  {
    if |data| < 8 {
      return None;
    }
    var count := ReadU64(data, 0);
    var end := count * ENTRY_LEN;
    if end > U64_MAX || end + 8 > U64_MAX || |data| < end + 8 {
      return None;
    }
    if count == 0 || SlotAt(data, 0) < target {
      return Some(NotYet);
    }
    ghost var entries := Parse(data).value;
    var i := 1;
    while i < count
      invariant 1 <= i <= count == |entries|
      invariant Scan(entries, target, i) == Scan(entries, target, 1)
    {
      if SlotAt(data, i) < target {
        return Some(Found(SlotAt(data, i - 1), HashAt(data, i - 1)));
      }
      i := i + 1;
    }
    var oldest := count - 1;
    if SlotAt(data, oldest) == target {
      result := Some(Found(target, HashAt(data, oldest)));
    } else {
      result := Some(Expired);
    }
  }

  // ---- the layout ---------------------------------------------------------------------------

  function EncodeEntries(entries: seq<SlotHash>): seq<byte>
    decreases |entries|
  {
    if entries == [] then []
    else
      var last := entries[|entries| - 1];
      EncodeEntries(entries[..|entries| - 1]) + ToBytes(last.slot, 8) + last.hash
  }

  /** The sysvar's layout: a count, then the entries. */
  function Encode(entries: seq<SlotHash>): seq<byte> {
    ToBytes(|entries|, 8) + EncodeEntries(entries)
  }

  ghost predicate FullHashes(entries: seq<SlotHash>) {
    forall i :: 0 <= i < |entries| ==> |entries[i].hash| == 32
  }

  lemma {:induction false} EncodedLength(entries: seq<SlotHash>)
    requires FullHashes(entries)
    ensures |EncodeEntries(entries)| == |entries| * ENTRY_LEN
    decreases |entries|
  {
    if entries != [] {
      EncodedLength(entries[..|entries| - 1]);
    }
  }

  lemma {:induction false} EntryBytes(entries: seq<SlotHash>, i: nat)
    requires FullHashes(entries) && i < |entries|
    ensures |EncodeEntries(entries)| >= (i + 1) * ENTRY_LEN
    ensures EncodeEntries(entries)[i * ENTRY_LEN..i * ENTRY_LEN + 8] == ToBytes(entries[i].slot, 8)
    ensures EncodeEntries(entries)[i * ENTRY_LEN + 8..(i + 1) * ENTRY_LEN] == entries[i].hash
    decreases |entries|
  {
    hide ToBytes;
    var n := |entries| - 1;
    EncodedLength(entries[..n]);
    if i < n {
      EntryBytes(entries[..n], i);
      var front := EncodeEntries(entries[..n]);
      SlicePrefix(front, ToBytes(entries[n].slot, 8) + entries[n].hash, i * ENTRY_LEN, i * ENTRY_LEN + 8);
      SlicePrefix(front, ToBytes(entries[n].slot, 8) + entries[n].hash, i * ENTRY_LEN + 8, (i + 1) * ENTRY_LEN);
      assert EncodeEntries(entries) == front + (ToBytes(entries[n].slot, 8) + entries[n].hash);
    }
  }

  lemma {:induction false} SlicePrefix(a: seq<byte>, b: seq<byte>, lo: nat, hi: nat)
    requires lo <= hi <= |a|
    ensures (a + b)[lo..hi] == a[lo..hi]
  {
  }

  lemma {:induction false} SliceSuffix(a: seq<byte>, b: seq<byte>, lo: nat, hi: nat)
    requires lo <= hi <= |b|
    ensures (a + b)[|a| + lo..|a| + hi] == b[lo..hi]
  {
  }

  lemma {:induction false} U64Back(value: u64)
    ensures LittleEndian(ToBytes(value, 8)) == value
  {
    hide Power256;
    EightBytes();
    BytesBack(value, 8);
  }

  lemma {:induction false} EntryBack(entries: seq<SlotHash>, i: nat)
    requires FullHashes(entries) && i < |entries| <= U64_MAX
    ensures |Encode(entries)| >= 8 + (i + 1) * ENTRY_LEN
    ensures SlotHash(SlotAt(Encode(entries), i), HashAt(Encode(entries), i)) == entries[i]
  {
    hide ToBytes, LittleEndian;
    EntryBytes(entries, i);
    var head, body := ToBytes(|entries|, 8), EncodeEntries(entries);
    SliceSuffix(head, body, i * ENTRY_LEN, i * ENTRY_LEN + 8);
    SliceSuffix(head, body, i * ENTRY_LEN + 8, (i + 1) * ENTRY_LEN);
    U64Back(entries[i].slot);
  }

  /** What the runtime writes, the program reads back, with or without anything after it. */
  lemma {:induction false} ParseEncoded(entries: seq<SlotHash>)
    requires FullHashes(entries) && |entries| * ENTRY_LEN + 8 <= U64_MAX
    ensures Parse(Encode(entries)) == Some(entries)
  {
    hide ToBytes, LittleEndian, SlotAt, HashAt;
    EncodedLength(entries);
    var data := Encode(entries);
    assert data[0..8] == ToBytes(|entries|, 8);
    U64Back(|entries|);
    forall i | 0 <= i < |entries|
      ensures |data| >= 8 + (i + 1) * ENTRY_LEN && SlotHash(SlotAt(data, i), HashAt(data, i)) == entries[i]
    {
      EntryBack(entries, i);
    }
    assert ReadU64(data, 0) == |entries|;
    assert Parse(data).value == entries;
  }

  /** Data cut short is refused, never misread. */
  lemma {:induction false} TruncatedRefused(entries: seq<SlotHash>, length: nat)
    requires FullHashes(entries) && |entries| * ENTRY_LEN + 8 <= U64_MAX && length < |Encode(entries)|
    ensures Parse(Encode(entries)[..length]) == None
  {
    hide ToBytes, LittleEndian;
    EncodedLength(entries);
    var data := Encode(entries)[..length];
    if length >= 8 {
      assert data[0..8] == ToBytes(|entries|, 8);
      U64Back(|entries|);
    }
  }

  // ---- one history, many windows -----------------------------------------------------------------

  /** The slots produced so far and later, oldest first; skipped slots are missing. */
  ghost predicate History(history: seq<SlotHash>) {
    forall i, j :: 0 <= i < j < |history| ==> history[i].slot < history[j].slot
  }

  /** What the sysvar holds at some moment: entries lo to hi - 1, newest first. */
  function Window(history: seq<SlotHash>, lo: nat, hi: nat): (window: seq<SlotHash>)
    requires lo <= hi <= |history|
    ensures |window| == hi - lo
  {
    seq(hi - lo, k requires 0 <= k < hi - lo => history[hi - 1 - k])
  }

  /** The position of the first produced slot at or after the target. */
  function First(history: seq<SlotHash>, target: u64): (first: nat)
    ensures first <= |history|
    decreases |history|
  {
    if history == [] || history[|history| - 1].slot < target then |history|
    else First(history[..|history| - 1], target)
  }

  lemma {:induction false} FirstIsFirst(history: seq<SlotHash>, target: u64, i: nat)
    requires History(history) && i < |history|
    ensures history[i].slot < target <==> i < First(history, target)
    decreases |history|
  {
    var n := |history| - 1;
    if history[n].slot >= target && i < n {
      FirstIsFirst(history[..n], target, i);
    } else if history[n].slot >= target {
      FirstBounded(history[..n], target);
    }
  }

  lemma {:induction false} FirstBounded(history: seq<SlotHash>, target: u64)
    ensures First(history, target) <= |history|
  {
  }

  function Rank(lookup: SeedLookup): nat {
    match lookup
    case NotYet => 0
    case Found(_, _) => 1
    case Expired => 2
  }

  /** The answer any window gives, in terms of the history alone. */
  function Answer(history: seq<SlotHash>, lo: nat, hi: nat, target: u64): SeedLookup
    requires lo <= hi <= |history|
  {
    var first := First(history, target);
    if lo == hi || hi <= first then NotYet
    else if first > lo || (first == lo && history[lo].slot == target) then
      Found(history[first].slot, history[first].hash)
    else Expired
  }

  lemma {:induction false} ScanAnswers(history: seq<SlotHash>, lo: nat, hi: nat, target: u64, i: nat)
    requires History(history) && lo < hi <= |history| && 1 <= i <= hi - lo && First(history, target) <= hi - i
    ensures Scan(Window(history, lo, hi), target, i) == Answer(history, lo, hi, target)
    decreases hi - lo - i
  {
    hide First;
    FirstIsFirst(history, target, First(history, target));
    if i < hi - lo {
      FirstIsFirst(history, target, hi - 1 - i);
      if history[hi - 1 - i].slot >= target {
        ScanAnswers(history, lo, hi, target, i + 1);
      }
    }
  }

  lemma {:induction false} LookupAnswers(history: seq<SlotHash>, lo: nat, hi: nat, target: u64)
    requires History(history) && lo <= hi <= |history|
    ensures Lookup(Window(history, lo, hi), target) == Answer(history, lo, hi, target)
  {
    hide First;
    if lo < hi {
      FirstIsFirst(history, target, hi - 1);
      if history[hi - 1].slot >= target {
        ScanAnswers(history, lo, hi, target, 1);
      }
    }
  }

  /** Every Found answer is the first produced slot at or after the target: nobody chooses the seed. */
  lemma {:induction false} FoundIsFirst(history: seq<SlotHash>, lo: nat, hi: nat, target: u64)
    requires History(history) && lo <= hi <= |history| && Lookup(Window(history, lo, hi), target).Found?
    ensures var first := First(history, target);
      first < hi && Lookup(Window(history, lo, hi), target) == Found(history[first].slot, history[first].hash)
      && history[first].slot >= target && forall i :: 0 <= i < first ==> history[i].slot < target
  {
    LookupAnswers(history, lo, hi, target);
    var first := First(history, target);
    FirstIsFirst(history, target, first);
    forall i | 0 <= i < first
      ensures history[i].slot < target
    {
      FirstIsFirst(history, target, i);
    }
  }

  /** Two windows that both find a seed find the same one. */
  lemma {:induction false} SeedIsUnique(history: seq<SlotHash>, lo: nat, hi: nat, lo': nat, hi': nat, target: u64)
    requires History(history) && lo <= hi <= |history| && lo' <= hi' <= |history|
    requires Lookup(Window(history, lo, hi), target).Found? && Lookup(Window(history, lo', hi'), target).Found?
    ensures Lookup(Window(history, lo, hi), target) == Lookup(Window(history, lo', hi'), target)
  {
    FoundIsFirst(history, lo, hi, target);
    FoundIsFirst(history, lo', hi', target);
  }

  /** As the window slides, the answer only moves from NotYet to Found to Expired. */
  lemma {:induction false} AnswersAdvance(history: seq<SlotHash>, lo: nat, hi: nat, lo': nat, hi': nat, target: u64)
    requires History(history) && lo <= hi && lo <= lo' < hi' <= |history| && hi <= hi'
    ensures Rank(Lookup(Window(history, lo, hi), target)) <= Rank(Lookup(Window(history, lo', hi'), target))
  {
    hide First;
    LookupAnswers(history, lo, hi, target);
    LookupAnswers(history, lo', hi', target);
    var first := First(history, target);
    if lo < hi && first < hi && lo <= first < |history| {
      FirstIsFirst(history, target, first);
    }
  }

  /** So a seed found expired is never found later. */
  lemma {:induction false} ExpiredStaysExpired(history: seq<SlotHash>, lo: nat, hi: nat, lo': nat, hi': nat,
                                               target: u64)
    requires History(history) && lo <= hi && lo <= lo' < hi' <= |history| && hi <= hi'
    requires Lookup(Window(history, lo, hi), target).Expired?
    ensures Lookup(Window(history, lo', hi'), target).Expired?
  {
    AnswersAdvance(history, lo, hi, lo', hi', target);
  }

  /** A seed is expired exactly when the slot before the first one at or after the target, or a produced target
      slot itself, has left the window. */
  lemma {:induction false} ExpiredIff(history: seq<SlotHash>, lo: nat, hi: nat, target: u64)
    requires History(history) && lo < hi <= |history|
    ensures Lookup(Window(history, lo, hi), target).Expired?
       <==> First(history, target) < hi
            && (First(history, target) < lo || (First(history, target) == lo && history[lo].slot != target))
  {
    LookupAnswers(history, lo, hi, target);
  }
}
