/**
 * The in-memory health repository: health logs (kept newest-inserted first
 * and handed out sorted by timestamp, newest first) and medication reminders
 * (kept in insertion order, each with a taken flag).
 */
module Health {
  import opened Models

  const DefaultRecentDays: int := 7

  // ---- Sorting by timestamp, newest first ----

  /** Each log is at least as new as the one after it. */
  ghost predicate SortedDesc(s: seq<HealthLog>) {
    forall i :: 0 < i < |s| ==> s[i - 1].timestamp >= s[i].timestamp
  }

  /** Newest first between any two positions, not only neighbours. */
  lemma {:induction false} SortedDescAllPairs(s: seq<HealthLog>)
    requires SortedDesc(s)
    ensures forall i, j :: 0 <= i < j < |s| ==> s[i].timestamp >= s[j].timestamp
  {
    if |s| > 1 {
      var t := s[1..];
      assert SortedDesc(t) by {
        assert forall i :: 0 < i < |t| ==> t[i - 1] == s[i] && t[i] == s[i + 1];
      }
      SortedDescAllPairs(t);
      forall i, j | 0 <= i < j < |s|
        ensures s[i].timestamp >= s[j].timestamp
      {
        if i == 0 {
          assert t[0] == s[1] && t[j - 1] == s[j];
          if j > 1 {
            assert t[0].timestamp >= t[j - 1].timestamp;
          }
        } else {
          assert t[i - 1] == s[i] && t[j - 1] == s[j];
        }
      }
    }
  }

  /** Puts `x` before the first entry that is not newer than it, so equal timestamps keep their order. */
  function InsertDesc(x: HealthLog, r: seq<HealthLog>): (out: seq<HealthLog>)
    ensures |out| == |r| + 1
    ensures out[0] == x || (r != [] && out[0] == r[0])
  {
    if r == [] || r[0].timestamp <= x.timestamp then [x] + r else [r[0]] + InsertDesc(x, r[1..])
  }

  lemma {:induction false} InsertDescPermutes(x: HealthLog, r: seq<HealthLog>)
    ensures multiset(InsertDesc(x, r)) == multiset(r) + multiset{x}
  {
    if r != [] && r[0].timestamp > x.timestamp {
      InsertDescPermutes(x, r[1..]);
      assert r == [r[0]] + r[1..];
    }
  }

  lemma {:induction false} InsertDescSorted(x: HealthLog, r: seq<HealthLog>)
    requires SortedDesc(r)
    ensures SortedDesc(InsertDesc(x, r))
  {
    if r != [] && r[0].timestamp > x.timestamp {
      var rest := InsertDesc(x, r[1..]);
      InsertDescSorted(x, r[1..]);
      assert InsertDesc(x, r) == [r[0]] + rest;
    }
  }

  /** `sortedByDescending { it.timestamp }`, as a stable insertion sort. */
  function SortByTimestampDesc(s: seq<HealthLog>): (r: seq<HealthLog>)
    ensures |r| == |s|
  {
    if s == [] then [] else InsertDesc(s[0], SortByTimestampDesc(s[1..]))
  }

  /** The sort returns the same logs, newest first. */
  lemma {:induction false} SortByTimestampDescCorrect(s: seq<HealthLog>)
    ensures multiset(SortByTimestampDesc(s)) == multiset(s)
    ensures SortedDesc(SortByTimestampDesc(s))
  {
    if s != [] {
      SortByTimestampDescCorrect(s[1..]);
      InsertDescPermutes(s[0], SortByTimestampDesc(s[1..]));
      InsertDescSorted(s[0], SortByTimestampDesc(s[1..]));
      assert s == [s[0]] + s[1..];
    }
  }

  /** The logs carrying timestamp `t`, in their order. */
  function WithTimestamp(s: seq<HealthLog>, t: Timestamp): seq<HealthLog> {
    if s == [] then []
    else if s[0].timestamp == t then [s[0]] + WithTimestamp(s[1..], t)
    else WithTimestamp(s[1..], t)
  }

  lemma {:induction false} WithTimestampInsert(x: HealthLog, r: seq<HealthLog>, t: Timestamp)
    requires SortedDesc(r)
    ensures WithTimestamp(InsertDesc(x, r), t)
      == if x.timestamp == t then [x] + WithTimestamp(r, t) else WithTimestamp(r, t)
  {
    if r == [] || r[0].timestamp <= x.timestamp {
      assert InsertDesc(x, r) == [x] + r;
      assert ([x] + r)[1..] == r;
    } else {
      var rest := InsertDesc(x, r[1..]);
      assert InsertDesc(x, r) == [r[0]] + rest;
      assert ([r[0]] + rest)[1..] == rest;
      if |r| > 1 {
        assert SortedDesc(r[1..]) by {
          assert forall i :: 0 < i < |r| - 1 ==> r[1..][i - 1] == r[i] && r[1..][i] == r[i + 1];
        }
      }
      WithTimestampInsert(x, r[1..], t);
      if x.timestamp == t {
        SortedDescAllPairs(r);
        // r[0] is strictly newer than x, hence not stamped t
        assert r[0].timestamp != t;
      }
    }
  }

  /** The sort is stable: logs with equal timestamps come out in the order they went in. */
  lemma {:induction false} SortIsStable(s: seq<HealthLog>, t: Timestamp)
    ensures WithTimestamp(SortByTimestampDesc(s), t) == WithTimestamp(s, t)
  {
    if s != [] {
      SortIsStable(s[1..], t);
      SortByTimestampDescCorrect(s[1..]);
      WithTimestampInsert(s[0], SortByTimestampDesc(s[1..]), t);
    }
  }

  /** `filter { it.timestamp.isAfter(cutoff) }`. */
  function After(s: seq<HealthLog>, cutoff: Timestamp): (r: seq<HealthLog>)
    ensures |r| <= |s|
    ensures forall e :: e in r <==> e in s && e.timestamp > cutoff
  {
    if s == [] then []
    else if s[0].timestamp > cutoff then [s[0]] + After(s[1..], cutoff)
    else After(s[1..], cutoff)
  }

  /** A log occurs as often in the filtered list as in the original when it is late enough, else not at all. */
  lemma {:induction false} AfterCounts(s: seq<HealthLog>, cutoff: Timestamp, e: HealthLog)
    ensures multiset(After(s, cutoff))[e] == if e.timestamp > cutoff then multiset(s)[e] else 0
  {
    if s != [] {
      AfterCounts(s[1..], cutoff, e);
      assert s == [s[0]] + s[1..];
    }
  }

  /** Filtering keeps every log when all are late enough. */
  lemma {:induction false} AfterKeepsAll(s: seq<HealthLog>, cutoff: Timestamp)
    requires forall i :: 0 <= i < |s| ==> s[i].timestamp > cutoff
    ensures After(s, cutoff) == s
  {
    if s != [] {
      AfterKeepsAll(s[1..], cutoff);
    }
  }

  // ---- Medications ----

  /** `indexOfFirst { it.id == id }`: the first position holding `id`, or -1. */
  function IndexOfFirst(meds: seq<MedicationReminder>, id: string): (k: int)
    ensures -1 <= k < |meds|
    ensures k >= 0 ==> meds[k].id == id
    ensures forall j :: 0 <= j < |meds| && (k < 0 || j < k) ==> meds[j].id != id
  {
    if meds == [] then -1
    else if meds[0].id == id then 0
    else
      var k := IndexOfFirst(meds[1..], id);
      if k < 0 then -1 else k + 1
  }

  /** `markMedicationTaken`: sets the flag of the first reminder with `id`; nothing else changes. */
  function MarkTaken(meds: seq<MedicationReminder>, id: string, taken: bool): (r: seq<MedicationReminder>)
    ensures |r| == |meds|
    ensures var k := IndexOfFirst(meds, id);
      forall j :: 0 <= j < |meds| ==>
        r[j] == if j == k then meds[j].(isTaken := taken) else meds[j]
    ensures (forall j :: 0 <= j < |meds| ==> meds[j].id != id) ==> r == meds
  {
    var index := IndexOfFirst(meds, id);
    if index >= 0 then meds[index := meds[index].(isTaken := taken)] else meds
  }

  /** Setting the flag does not move any id, so the same reminder is found again. */
  lemma MarkTakenKeepsIndex(meds: seq<MedicationReminder>, id: string, taken: bool, other: string)
    ensures IndexOfFirst(MarkTaken(meds, id, taken), other) == IndexOfFirst(meds, other)
  {
    var r := MarkTaken(meds, id, taken);
    assert forall j :: 0 <= j < |meds| ==> r[j].id == meds[j].id;
  }

  /** Marking twice with the same flag is marking once. */
  lemma MarkTakenIdempotent(meds: seq<MedicationReminder>, id: string, taken: bool)
    ensures MarkTaken(MarkTaken(meds, id, taken), id, taken) == MarkTaken(meds, id, taken)
  {
    MarkTakenKeepsIndex(meds, id, taken, id);
  }

  /** Marking back to the previous flag restores the list. */
  lemma MarkTakenUndo(meds: seq<MedicationReminder>, id: string, taken: bool)
    requires IndexOfFirst(meds, id) >= 0
    ensures MarkTaken(MarkTaken(meds, id, taken), id, meds[IndexOfFirst(meds, id)].isTaken) == meds
  {
    MarkTakenKeepsIndex(meds, id, taken, id);
  }

  // ---- Fixture ----

  /** The four sample logs: the given ids, all within the last seven days, newest first. */
  function SampleHealthLogs(now: Timestamp, ids: seq<string>): (logs: seq<HealthLog>)
    requires |ids| == 4
    ensures |logs| == 4
    ensures forall i :: 0 <= i < 4 ==> logs[i].id == ids[i]
    ensures forall i :: 0 <= i < 4 ==> now - DefaultRecentDays * Day < logs[i].timestamp < now
    ensures forall i :: 0 < i < 4 ==> logs[i - 1].timestamp > logs[i].timestamp
  {
    [ HealthLog(ids[0], now - 2 * Hour, Some(125), Some(82), Some(110), Some(36.8), Some(72),
        Some("Feeling good after morning walk")),
      HealthLog(ids[1], now - Day, Some(130), Some(85), Some(105), Some(36.9), Some(75),
        Some("Evening check")),
      HealthLog(ids[2], now - 2 * Day, Some(122), Some(80), Some(98), Some(36.7), Some(70),
        None),
      HealthLog(ids[3], now - 3 * Day, Some(128), Some(84), Some(115), Some(37.0), Some(78),
        Some("Had lunch, checked after")) ]
  }

  /** The sample reminders have ids "1", "2", "3"; only "1" is marked taken. */
  function SampleMedications(): (meds: seq<MedicationReminder>)
    ensures |meds| == 3
    ensures forall j :: 0 <= j < 3 ==> meds[j].id == [('1' as int + j) as char]
    ensures forall j :: 0 <= j < 3 ==> (meds[j].isTaken <==> j == 0)
  {
    [ MedicationReminder("1", "Blood Pressure Med", "5mg", "Once daily", "8:00 AM", true),
      MedicationReminder("2", "Diabetes Med", "500mg", "Twice daily", "8:00 AM, 8:00 PM", false),
      MedicationReminder("3", "Vitamin D", "1000 IU", "Once daily", "9:00 AM", false) ]
  }

  /** The four sample logs are already newest first, and all fall inside a 7-day window. */
  lemma SampleLogsAreRecent(now: Timestamp, ids: seq<string>)
    requires |ids| == 4
    ensures SortedDesc(SampleHealthLogs(now, ids))
    ensures After(SampleHealthLogs(now, ids), now - DefaultRecentDays * Day) == SampleHealthLogs(now, ids)
  {
    AfterKeepsAll(SampleHealthLogs(now, ids), now - DefaultRecentDays * Day);
  }

  class FakeHealthRepository {
    var healthLogs: seq<HealthLog>
    var medications: seq<MedicationReminder>

    /** `logIds` stands for the four random UUIDs of the sample logs. */
    constructor (now: Timestamp, logIds: seq<string>)
      requires |logIds| == 4
      ensures healthLogs == SampleHealthLogs(now, logIds)
      ensures medications == SampleMedications()
    {
      healthLogs := SampleHealthLogs(now, logIds);
      medications := SampleMedications();
    }

    /** All logs, newest first: a reordering of the stored ones that keeps equal timestamps in order. */
    function GetHealthLogs(): (r: seq<HealthLog>)
      reads this
      ensures multiset(r) == multiset(healthLogs)
      ensures forall i, j :: 0 <= i < j < |r| ==> r[i].timestamp >= r[j].timestamp
      ensures forall t :: WithTimestamp(r, t) == WithTimestamp(healthLogs, t)
    {
      var sorted := SortByTimestampDesc(healthLogs);
      SortByTimestampDescCorrect(healthLogs);
      SortedDescAllPairs(sorted);
      assert forall t :: WithTimestamp(sorted, t) == WithTimestamp(healthLogs, t) by {
        forall t ensures WithTimestamp(sorted, t) == WithTimestamp(healthLogs, t) {
          SortIsStable(healthLogs, t);
        }
      }
      sorted
    }

    /**
     * The logs strictly later than `days` days before `now`, newest first: each
     * such log as often as it is stored, and no other.
     */
    function GetRecentHealthLogs(now: Timestamp, days: int): (r: seq<HealthLog>)
      reads this
      ensures forall e :: multiset(r)[e] == if e.timestamp > now - days * Day then multiset(healthLogs)[e] else 0
      ensures forall i, j :: 0 <= i < j < |r| ==> r[i].timestamp >= r[j].timestamp
    {
      var cutoff := now - days * Day;
      var kept := After(healthLogs, cutoff);
      var sorted := SortByTimestampDesc(kept);
      SortByTimestampDescCorrect(kept);
      SortedDescAllPairs(sorted);
      assert forall e :: multiset(sorted)[e] == if e.timestamp > cutoff then multiset(healthLogs)[e] else 0 by {
        forall e ensures multiset(sorted)[e] == if e.timestamp > cutoff then multiset(healthLogs)[e] else 0 {
          AfterCounts(healthLogs, cutoff, e);
        }
      }
      sorted
    }

    /** Records a log with the given vitals at index 0; `id` and `now` stand for the UUID and the clock. */
    method AddHealthLog(
      bloodPressureSystolic: Option<int>, bloodPressureDiastolic: Option<int>, bloodSugar: Option<int>,
      temperature: Option<real>, heartRate: Option<int>, notes: Option<string>,
      id: string, now: Timestamp) returns (log: HealthLog)
      modifies this
      ensures log == HealthLog(id, now, bloodPressureSystolic, bloodPressureDiastolic, bloodSugar,
        temperature, heartRate, notes)
      ensures healthLogs == [log] + old(healthLogs)
      ensures medications == old(medications)
    {
      log := HealthLog(id, now, bloodPressureSystolic, bloodPressureDiastolic, bloodSugar,
        temperature, heartRate, notes);
      healthLogs := [log] + healthLogs;
    }

    function GetMedications(): (r: seq<MedicationReminder>)
      reads this
      ensures r == medications
    {
      medications
    }

    method MarkMedicationTaken(medicationId: string, taken: bool)
      modifies this
      ensures medications == MarkTaken(old(medications), medicationId, taken)
      ensures healthLogs == old(healthLogs)
    {
      var index := IndexOfFirst(medications, medicationId);
      if index >= 0 {
        medications := medications[index := medications[index].(isTaken := taken)];
      }
    }

    /** Appends a reminder that is not yet taken; `id` stands for the UUID. */
    method AddMedication(name: string, dosage: string, frequency: string, time: string, id: string)
      returns (medication: MedicationReminder)
      modifies this
      ensures medication == MedicationReminder(id, name, dosage, frequency, time, false)
      ensures medications == old(medications) + [medication]
      ensures healthLogs == old(healthLogs)
    {
      medication := MedicationReminder(id, name, dosage, frequency, time, false);
      medications := medications + [medication];
    }
  }
}
