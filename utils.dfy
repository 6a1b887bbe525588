/** `get_most_recent_scans`: narrows a list of scan records to, per volume, the
    latest scan and, when that scan is running or successful, the scan found for
    the latest completed-and-successful creation time. */
module Utils {
  import opened Wrappers

  datatype ScanState = ScanState(isRunning: bool, isSuccessful: bool)

  /** A scan record; `creation_time` is compared as a number. */
  datatype Scan = Scan(volume: string, creationTime: int, state: ScanState)

  datatype ScanError = EmptyMax(volume: string)   // ValueError: `max()` of an empty sequence

  function Volumes(scans: seq<Scan>): set<string>
  {
    set s | s in scans :: s.volume
  }

  /** Not running and successful: the scans the second `max` ranges over. */
  predicate Completed(s: Scan)
  {
    !s.state.isRunning && s.state.isSuccessful
  }

  /** The scans of `volume` that a `max` ranges over: all of them, or the completed ones. */
  predicate Eligible(s: Scan, volume: string, completedOnly: bool)
  {
    s.volume == volume && (!completedOnly || Completed(s))
  }

  /** `max(s['creation_time'] for s in scans if ...)`, None where Python raises. */
  function MaxTime(scans: seq<Scan>, volume: string, completedOnly: bool): (t: Option<int>)
    ensures t.None? <==> forall i :: 0 <= i < |scans| ==> !Eligible(scans[i], volume, completedOnly)
    ensures t.Some? ==> exists i :: 0 <= i < |scans| && Eligible(scans[i], volume, completedOnly) &&
                                    scans[i].creationTime == t.value
    ensures t.Some? ==> forall i :: 0 <= i < |scans| && Eligible(scans[i], volume, completedOnly) ==>
                                    scans[i].creationTime <= t.value
  {
    if scans == [] then None
    else
      var rest := MaxTime(scans[1..], volume, completedOnly);
      var head := scans[0];
      assert forall i :: 1 <= i < |scans| ==> scans[i] == scans[1..][i - 1];
      if !Eligible(head, volume, completedOnly) then
        assert rest.Some? ==> exists i :: 0 <= i < |scans| && Eligible(scans[i], volume, completedOnly) &&
                                          scans[i].creationTime == rest.value by {
          if rest.Some? {
            var k :| 0 <= k < |scans[1..]| && Eligible(scans[1..][k], volume, completedOnly) &&
                     scans[1..][k].creationTime == rest.value;
            assert scans[k + 1] == scans[1..][k];
          }
        }
        rest
      else if rest.None? || rest.value <= head.creationTime then Some(head.creationTime)
      else
        assert exists i :: 0 <= i < |scans| && Eligible(scans[i], volume, completedOnly) &&
                           scans[i].creationTime == rest.value by {
          var k :| 0 <= k < |scans[1..]| && Eligible(scans[1..][k], volume, completedOnly) &&
                   scans[1..][k].creationTime == rest.value;
          assert scans[k + 1] == scans[1..][k];
        }
        rest
  }

  /** `next(s for s in scans if s['creation_time'] == time and s['volume'] == volume)`:
      the index of the first such scan. */
  function FirstAt(scans: seq<Scan>, volume: string, time: int): (i: nat)
    requires exists k :: 0 <= k < |scans| && scans[k].volume == volume && scans[k].creationTime == time
    ensures i < |scans| && scans[i].volume == volume && scans[i].creationTime == time
    ensures forall j :: 0 <= j < i ==> !(scans[j].volume == volume && scans[j].creationTime == time)
  {
    if scans[0].volume == volume && scans[0].creationTime == time then 0
    else
      assert exists k :: 0 <= k < |scans[1..]| && scans[1..][k].volume == volume && scans[1..][k].creationTime == time by {
        var k :| 0 <= k < |scans| && scans[k].volume == volume && scans[k].creationTime == time;
        assert scans[1..][k - 1] == scans[k];
      }
      var j := FirstAt(scans[1..], volume, time);
      assert forall m :: 1 <= m <= j ==> scans[m] == scans[1..][m - 1];
      j + 1
  }

  /** The latest scan of a volume: a scan of that volume with the greatest creation time. */
  function LatestScan(scans: seq<Scan>, volume: string): (s: Scan)
    requires volume in Volumes(scans)
    ensures s in scans && s.volume == volume
    ensures forall x :: x in scans && x.volume == volume ==> x.creationTime <= s.creationTime
  {
    assert exists i :: 0 <= i < |scans| && Eligible(scans[i], volume, false) by {
      var x :| x in scans && x.volume == volume;
      var i :| 0 <= i < |scans| && scans[i] == x;
    }
    var t := MaxTime(scans, volume, false);
    var i := FirstAt(scans, volume, t.value);
    assert forall x :: x in scans && x.volume == volume ==> x.creationTime <= t.value by {
      forall x | x in scans && x.volume == volume ensures x.creationTime <= t.value {
        var k :| 0 <= k < |scans| && scans[k] == x;
        assert Eligible(scans[k], volume, false);
      }
    }
    scans[i]
  }

  /** Among scans of the volume that share the greatest creation time, the latest scan
      is the first in input order. */
  lemma LatestScanFirstAmongTies(scans: seq<Scan>, volume: string)
    requires volume in Volumes(scans)
    ensures exists i ::
      0 <= i < |scans| && scans[i] == LatestScan(scans, volume) &&
      forall j :: 0 <= j < i && scans[j].volume == volume ==> scans[j].creationTime < scans[i].creationTime
  {
    assert exists i :: 0 <= i < |scans| && Eligible(scans[i], volume, false) by {
      var x :| x in scans && x.volume == volume;
      var i :| 0 <= i < |scans| && scans[i] == x;
    }
    var t := MaxTime(scans, volume, false);
    var i := FirstAt(scans, volume, t.value);
    forall j | 0 <= j < i && scans[j].volume == volume ensures scans[j].creationTime < t.value {
      assert Eligible(scans[j], volume, false);
    }
  }

  /** Whether the latest scan calls for a second record. */
  predicate NeedsCompleted(scans: seq<Scan>, volume: string)
    requires volume in Volumes(scans)
  {
    var latest := LatestScan(scans, volume);
    latest.state.isRunning || latest.state.isSuccessful
  }

  predicate HasCompleted(scans: seq<Scan>, volume: string)
  {
    exists i :: 0 <= i < |scans| && Eligible(scans[i], volume, true)
  }

  /** The second record: the first scan of the volume, in input order, created at the
      latest completed-and-successful creation time. Its own state is not re-checked. */
  function LastCompletedScan(scans: seq<Scan>, volume: string): (s: Scan)
    requires HasCompleted(scans, volume)
    ensures s in scans && s.volume == volume
    ensures exists c :: c in scans && Completed(c) && c.volume == volume && c.creationTime == s.creationTime
    ensures forall c :: c in scans && Completed(c) && c.volume == volume ==> c.creationTime <= s.creationTime
    ensures exists i ::
      (0 <= i < |scans| && scans[i] == s &&
       forall j :: 0 <= j < i ==> !(scans[j].volume == volume && scans[j].creationTime == s.creationTime))
  {
    var t := MaxTime(scans, volume, true);
    var i := FirstAt(scans, volume, t.value);
    assert exists c :: c in scans && Completed(c) && c.volume == volume && c.creationTime == t.value by {
      var k :| 0 <= k < |scans| && Eligible(scans[k], volume, true) && scans[k].creationTime == t.value;
      assert scans[k] in scans;
    }
    assert forall c :: c in scans && Completed(c) && c.volume == volume ==> c.creationTime <= t.value by {
      forall c | c in scans && Completed(c) && c.volume == volume ensures c.creationTime <= t.value {
        var k :| 0 <= k < |scans| && scans[k] == c;
        assert Eligible(scans[k], volume, true);
      }
    }
    scans[i]
  }

  /** The volume's loop iteration raises no exception. */
  predicate NarrowOk(scans: seq<Scan>, volume: string)
    requires volume in Volumes(scans)
  {
    NeedsCompleted(scans, volume) ==> HasCompleted(scans, volume)
  }

  /** What one iteration of the loop appends for `volume`. */
  function Narrowed(scans: seq<Scan>, volume: string): (r: seq<Scan>)
    requires volume in Volumes(scans) && NarrowOk(scans, volume)
    ensures |r| == if NeedsCompleted(scans, volume) then 2 else 1
    ensures r[0] == LatestScan(scans, volume)
    ensures NeedsCompleted(scans, volume) ==> r[1] == LastCompletedScan(scans, volume)
    ensures forall s :: s in r ==> s in scans && s.volume == volume
  {
    var latest := LatestScan(scans, volume);
    if NeedsCompleted(scans, volume) then [latest, LastCompletedScan(scans, volume)] else [latest]
  }

  /** The output for volumes taken in the order `order`. */
  function Concat(scans: seq<Scan>, order: seq<string>): seq<Scan>
    requires forall v :: v in order ==> v in Volumes(scans) && NarrowOk(scans, v)
  {
    if order == [] then []
    else Concat(scans, order[..|order| - 1]) + Narrowed(scans, order[|order| - 1])
  }

  /** `order` lists every element of `vs` exactly once. */
  ghost predicate Enumerates(order: seq<string>, vs: set<string>)
  {
    (forall v :: v in order <==> v in vs) &&
    forall i, j :: 0 <= i < j < |order| ==> order[i] != order[j]
  }

  /** Every volume in `order` is narrowed without an exception. */
  ghost predicate AllOk(scans: seq<Scan>, order: seq<string>)
  {
    forall v :: v in order ==> v in Volumes(scans) && NarrowOk(scans, v)
  }

  lemma ConcatSnoc(scans: seq<Scan>, order: seq<string>, volume: string)
    requires AllOk(scans, order)
    requires volume in Volumes(scans) && NarrowOk(scans, volume)
    ensures AllOk(scans, order + [volume])
    ensures Concat(scans, order + [volume]) == Concat(scans, order) + Narrowed(scans, volume)
  {
    assert (order + [volume])[..|order|] == order;
  }

  lemma EnumeratesSnoc(order: seq<string>, vs: set<string>, v: string)
    requires Enumerates(order, vs) && v !in vs
    ensures Enumerates(order + [v], vs + {v})
  {
  }

  /** An enumeration of a set has exactly as many entries as the set has elements. */
  lemma {:induction false} EnumeratesCard(order: seq<string>, vs: set<string>)
    requires Enumerates(order, vs)
    ensures |order| == |vs|
  {
    if order == [] {
      assert vs == {};
    } else {
      var last := order[|order| - 1];
      var init := order[..|order| - 1];
      assert order == init + [last];
      assert Enumerates(init, vs - {last}) by {
        forall v ensures v in init <==> v in vs - {last} {
          if v in init {
            var k :| 0 <= k < |init| && init[k] == v;
            assert order[k] == v && k < |order| - 1;
          }
        }
      }
      EnumeratesCard(init, vs - {last});
    }
  }

  lemma AppendTwo<T>(s: seq<T>, a: T, b: T)
    ensures s + [a] + [b] == s + [a, b]
  {
  }

  /** Python iterates the volume set in an order it does not specify; the loop here
      takes the volumes in an arbitrary order, returned as `order`. */
  method GetMostRecentScans(scans: seq<Scan>) returns (r: Result<seq<Scan>, ScanError>, ghost order: seq<string>)
    ensures r.Success? <==> forall v :: v in Volumes(scans) ==> NarrowOk(scans, v)
    ensures r.Success? ==> Enumerates(order, Volumes(scans)) && r.value == Concat(scans, order)
    ensures r.Success? ==> |order| == |Volumes(scans)|
    ensures r.Failure? ==> r.error.volume in Volumes(scans) && !NarrowOk(scans, r.error.volume)
  {
    var scansNarrowed: seq<Scan> := [];
    var volumes := Volumes(scans);
    var remaining := volumes;
    order := [];
    while remaining != {}
      invariant remaining <= volumes
      invariant Enumerates(order, volumes - remaining)
      invariant AllOk(scans, order)
      invariant scansNarrowed == Concat(scans, order)
      decreases remaining
    {
      var volume :| volume in remaining;
      ghost var old_remaining := remaining;
      var latestScan := LatestScan(scans, volume);
      ghost var before := scansNarrowed;
      scansNarrowed := scansNarrowed + [latestScan];
      if latestScan.state.isRunning || latestScan.state.isSuccessful {
        var lastCompletedTime := MaxTime(scans, volume, true);
        if lastCompletedTime.None? {
          return Failure(EmptyMax(volume)), order;
        }
        var lastCompleted := LastCompletedScan(scans, volume);
        scansNarrowed := scansNarrowed + [lastCompleted];
        assert Narrowed(scans, volume) == [latestScan, lastCompleted];
        AppendTwo(before, latestScan, lastCompleted);
      } else {
        assert Narrowed(scans, volume) == [latestScan];
      }
      assert scansNarrowed == before + Narrowed(scans, volume);
      assert NarrowOk(scans, volume);
      ConcatSnoc(scans, order, volume);
      EnumeratesSnoc(order, volumes - remaining, volume);
      order := order + [volume];
      remaining := remaining - {volume};
      assert volumes - remaining == (volumes - old_remaining) + {volume};
    }
    assert volumes - remaining == volumes;
    EnumeratesCard(order, volumes);
    r := Success(scansNarrowed);
  }

  /** Every volume's latest scan is in the output. */
  lemma {:induction false} LatestScanInOutput(scans: seq<Scan>, order: seq<string>, v: string)
    requires forall w :: w in order ==> w in Volumes(scans) && NarrowOk(scans, w)
    requires v in order
    ensures LatestScan(scans, v) in Concat(scans, order)
  {
    var last := order[|order| - 1];
    if v == last {
      assert Narrowed(scans, v)[0] in Narrowed(scans, v);
    } else {
      assert v in order[..|order| - 1] by {
        var i :| 0 <= i < |order| && order[i] == v;
        assert i < |order| - 1;
        assert order[..|order| - 1][i] == v;
      }
      LatestScanInOutput(scans, order[..|order| - 1], v);
    }
  }

  /** Output length lies between the number of volumes and twice that number. */
  lemma {:induction false} OutputLengthBounds(scans: seq<Scan>, order: seq<string>)
    requires forall w :: w in order ==> w in Volumes(scans) && NarrowOk(scans, w)
    ensures |order| <= |Concat(scans, order)| <= 2 * |order|
  {
    if order != [] {
      OutputLengthBounds(scans, order[..|order| - 1]);
    }
  }

  /** Every output element is one of the input scans. */
  lemma {:induction false} OutputFromInput(scans: seq<Scan>, order: seq<string>)
    requires forall w :: w in order ==> w in Volumes(scans) && NarrowOk(scans, w)
    ensures forall s :: s in Concat(scans, order) ==> s in scans
  {
    if order != [] {
      OutputFromInput(scans, order[..|order| - 1]);
    }
  }

  /** A latest scan that is itself completed is reported twice. */
  lemma CompletedLatestTwice(scans: seq<Scan>, volume: string)
    requires volume in Volumes(scans) && Completed(LatestScan(scans, volume))
    ensures NarrowOk(scans, volume)
    ensures Narrowed(scans, volume) == [LatestScan(scans, volume), LatestScan(scans, volume)]
  {
    var latest := LatestScan(scans, volume);
    LatestScanFirstAmongTies(scans, volume);
    var i :| 0 <= i < |scans| && scans[i] == latest &&
      forall j :: 0 <= j < i && scans[j].volume == volume ==> scans[j].creationTime < latest.creationTime;
    assert Eligible(scans[i], volume, true);
    var second := LastCompletedScan(scans, volume);
    assert second.creationTime == latest.creationTime;
    var t := MaxTime(scans, volume, true);
    assert t.value == latest.creationTime by {
      var k :| 0 <= k < |scans| && Eligible(scans[k], volume, true) && scans[k].creationTime == t.value;
      assert scans[k] in scans;
    }
    var f := FirstAt(scans, volume, t.value);
    assert f == i;
  }

  /** A running or successful latest scan with no completed scan of its volume makes
      the narrowing fail. */
  lemma NoCompletedFails(scans: seq<Scan>, volume: string)
    requires volume in Volumes(scans) && NeedsCompleted(scans, volume)
    requires forall s :: s in scans && s.volume == volume ==> !Completed(s)
    ensures !NarrowOk(scans, volume)
  {
    forall i | 0 <= i < |scans| ensures !Eligible(scans[i], volume, true) {
      assert scans[i] in scans;
    }
  }

  /** Ties are not re-checked: a running scan created at the same time as the latest
      completed one, and listed before it, is taken as the second record. */
  lemma SecondRecordMayBeRunning()
    ensures var running := Scan("v", 5, ScanState(true, false));
      var done := Scan("v", 5, ScanState(false, true));
      var scans := [running, done];
      NarrowOk(scans, "v") && Narrowed(scans, "v") == [running, running]
  {
    var running := Scan("v", 5, ScanState(true, false));
    var done := Scan("v", 5, ScanState(false, true));
    var scans := [running, done];
    assert running in scans;
    assert Eligible(scans[1], "v", true);
    assert LatestScan(scans, "v") == running;
    assert MaxTime(scans, "v", true) == Some(5);
  }
}
