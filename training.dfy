/** The training tab's bookkeeping (training.py:118-436): the nine metric
  * series plotted during training, the list of devices offered and the
  * device and data checks made before a run starts. */
module Training {
  import opened Wrappers
  import opened Text

  /** The nine keys of `data_cache`, one series each. */
  datatype Series = Epoch | BoxLoss | ClsLoss | DflLoss | Map50 | Map5095 | Precision | Recall | GpuMem

  /** The key text of each series in `data_cache` and in a metrics payload. */
  function Key(k: Series): string
  {
    match k
    case Epoch => "epoch"
    case BoxLoss => "box_loss"
    case ClsLoss => "cls_loss"
    case DflLoss => "dfl_loss"
    case Map50 => "map50"
    case Map5095 => "map50_95"
    case Precision => "precision"
    case Recall => "recall"
    case GpuMem => "gpu_mem"
  }

  /** The keys in the order `data_cache` is built. */
  const AllSeries: seq<Series> := [Epoch, BoxLoss, ClsLoss, DflLoss, Map50, Map5095, Precision, Recall, GpuMem]

  /** Every series is among the nine. */
  lemma AllSeriesComplete(k: Series)
    ensures k in AllSeries
  {
  }

  /** One `metrics_signal` payload: the training thread always sends all nine values. */
  datatype Metrics = Metrics(
    epoch: real, boxLoss: real, clsLoss: real, dflLoss: real,
    map50: real, map5095: real, precision: real, recall: real, gpuMem: real)

  /** `metrics[key]`. */
  function Value(m: Metrics, k: Series): real
  {
    match k
    case Epoch => m.epoch
    case BoxLoss => m.boxLoss
    case ClsLoss => m.clsLoss
    case DflLoss => m.dflLoss
    case Map50 => m.map50
    case Map5095 => m.map5095
    case Precision => m.precision
    case Recall => m.recall
    case GpuMem => m.gpuMem
  }

  /** The series for `k` after the updates `ms`, in arrival order. */
  function Column(ms: seq<Metrics>, k: Series): (r: seq<real>)
    ensures |r| == |ms|
    ensures forall i :: 0 <= i < |ms| ==> r[i] == Value(ms[i], k)
  {
    seq(|ms|, i requires 0 <= i < |ms| => Value(ms[i], k))
  }

  /** The cache that holds, for every key, the column of `ms`. */
  function CacheOf(ms: seq<Metrics>): (c: map<Series, seq<real>>)
    ensures forall k :: k in c <==> k in AllSeries
    ensures forall k :: k in AllSeries ==> c[k] == Column(ms, k)
  {
    map k | k in AllSeries :: Column(ms, k)
  }

  /** One more update extends every series by that update's value, and no
    * series by anything else. */
  lemma {:induction false} CacheGrows(ms: seq<Metrics>, m: Metrics)
    ensures forall k :: k in AllSeries ==> CacheOf(ms + [m])[k] == CacheOf(ms)[k] + [Value(m, k)]
  {
    forall k | k in AllSeries ensures CacheOf(ms + [m])[k] == CacheOf(ms)[k] + [Value(m, k)] {
      assert Column(ms + [m], k) == Column(ms, k) + [Value(m, k)];
    }
  }

  /** Every series of `c` extended by its value in `m`. */
  function Appended(c: map<Series, seq<real>>, m: Metrics): (r: map<Series, seq<real>>)
  {
    map k | k in c :: c[k] + [Value(m, k)]
  }

  /** The nine appends of `update_data_and_chart`, one per key, extend every series once. */
  lemma NineAppends(c: map<Series, seq<real>>, m: Metrics)
    requires forall k :: k in AllSeries ==> k in c
    ensures c[Epoch := c[Epoch] + [m.epoch]][BoxLoss := c[BoxLoss] + [m.boxLoss]]
             [ClsLoss := c[ClsLoss] + [m.clsLoss]][DflLoss := c[DflLoss] + [m.dflLoss]]
             [Map50 := c[Map50] + [m.map50]][Map5095 := c[Map5095] + [m.map5095]]
             [Precision := c[Precision] + [m.precision]][Recall := c[Recall] + [m.recall]]
             [GpuMem := c[GpuMem] + [m.gpuMem]]
          == Appended(c, m)
  {
    var d := c[Epoch := c[Epoch] + [m.epoch]][BoxLoss := c[BoxLoss] + [m.boxLoss]]
             [ClsLoss := c[ClsLoss] + [m.clsLoss]][DflLoss := c[DflLoss] + [m.dflLoss]]
             [Map50 := c[Map50] + [m.map50]][Map5095 := c[Map5095] + [m.map5095]]
             [Precision := c[Precision] + [m.precision]][Recall := c[Recall] + [m.recall]]
             [GpuMem := c[GpuMem] + [m.gpuMem]];
    forall k ensures k in d <==> k in Appended(c, m) {
      AllSeriesComplete(k);
    }
    forall k | k in d ensures d[k] == Appended(c, m)[k] {
      AllSeriesComplete(k);
    }
  }

  /** Appending one update to the cache is the cache of one more update. */
  lemma CacheAppended(ms: seq<Metrics>, m: Metrics)
    ensures CacheOf(ms + [m]) == Appended(CacheOf(ms), m)
  {
    CacheGrows(ms, m);
  }

  /** All nine series always have the same length: the number of updates. */
  lemma SeriesAligned(ms: seq<Metrics>, a: Series, b: Series)
    ensures |CacheOf(ms)[a]| == |CacheOf(ms)[b]| == |ms|
  {
  }

  /** The display names and identifiers `detect_available_devices` produces:
    * `GPU i` for each CUDA device, then `MPS`, then `CPU`. */
  function GpuNames(n: nat): (r: seq<string>)
    ensures |r| == n
  {
    if n == 0 then [] else GpuNames(n - 1) + [GpuName(n - 1)]
  }

  /** `f"GPU {i}"`. */
  function GpuName(i: nat): string
  {
    "GPU " + NatToString(i)
  }

  /** The device list in offer order. */
  function DeviceList(cuda: bool, gpuCount: nat, mps: bool): (r: seq<string>)
    ensures |r| == (if cuda then gpuCount else 0) + (if mps then 1 else 0) + 1
    ensures r[|r| - 1] == "CPU"
  {
    (if cuda then GpuNames(gpuCount) else []) + (if mps then ["MPS"] else []) + ["CPU"]
  }

  /** The device chosen by default. */
  function DefaultDevice(cuda: bool, gpuCount: nat, mps: bool): (r: string)
    ensures r == DeviceList(cuda, gpuCount, mps)[0]
  {
    GpuNamesAt(gpuCount);
    if cuda && gpuCount > 0 then GpuName(0) else if mps then "MPS" else "CPU"
  }

  /** The offer order is GPUs by index, then MPS when available, then CPU last;
    * the default device is offered; no name is offered twice. */
  lemma {:induction false} DeviceListShape(cuda: bool, gpuCount: nat, mps: bool)
    ensures var d := DeviceList(cuda, gpuCount, mps);
      var g := if cuda then gpuCount else 0;
      |d| == g + (if mps then 1 else 0) + 1
      && d[|d| - 1] == "CPU"
      && (forall i :: 0 <= i < g ==> d[i] == GpuName(i))
      && (mps ==> d[g] == "MPS")
      && DefaultDevice(cuda, gpuCount, mps) in d
      && (forall i, j :: 0 <= i < j < |d| ==> d[i] != d[j])
  {
    var d := DeviceList(cuda, gpuCount, mps);
    var g := if cuda then gpuCount else 0;
    GpuNamesAt(g);
    forall i, j | 0 <= i < j < |d| ensures d[i] != d[j] {
      if j < g {
        if d[i] == d[j] {
          GpuNameInjective(i, j);
        }
      } else if i < g {
        assert d[i][..4] == "GPU ";
      }
    }
  }

  lemma {:induction false} GpuNamesAt(n: nat)
    ensures forall i :: 0 <= i < n ==> GpuNames(n)[i] == GpuName(i)
  {
    if n > 0 {
      GpuNamesAt(n - 1);
    }
  }

  lemma GpuNameShape(i: nat)
    ensures |GpuName(i)| >= 5 && GpuName(i)[..4] == "GPU "
  {
  }

  lemma GpuNameInjective(i: nat, j: nat)
    requires GpuName(i) == GpuName(j)
    ensures i == j
  {
    assert GpuName(i)[4..] == NatToString(i);
    assert GpuName(j)[4..] == NatToString(j);
    DigitsOfNat(i);
    DigitsOfNat(j);
  }

  /** The mapping built for the first `n` GPUs: `GPU i` to `"i"`. */
  function GpuMap(n: nat): map<string, string>
  {
    if n == 0 then map[] else GpuMap(n - 1)[GpuName(n - 1) := NatToString(n - 1)]
  }

  /** `device_mapping` as `detect_available_devices` leaves it. */
  function DeviceMap(cuda: bool, gpuCount: nat, mps: bool): (r: map<string, string>)
    ensures "CPU" in r && r["CPU"] == "cpu"
    ensures mps ==> "MPS" in r && r["MPS"] == "mps"
  {
    var g := if cuda then GpuMap(gpuCount) else map[];
    var m := if mps then g["MPS" := "mps"] else g;
    m["CPU" := "cpu"]
  }

  /** The GPU mapping holds exactly the first `n` GPU names, each mapped to its index. */
  lemma {:induction false} GpuMapAt(n: nat)
    ensures forall name :: name in GpuMap(n) <==> exists i :: 0 <= i < n && name == GpuName(i)
    ensures forall i :: 0 <= i < n ==> GpuName(i) in GpuMap(n) && GpuMap(n)[GpuName(i)] == NatToString(i)
  {
    if n > 0 {
      GpuMapAt(n - 1);
      forall i | 0 <= i < n - 1 ensures GpuName(i) != GpuName(n - 1) {
        if GpuName(i) == GpuName(n - 1) {
          GpuNameInjective(i, n - 1);
        }
      }
    }
  }

  /** The mapping is keyed by exactly the offered names. */
  lemma DeviceMapKeys(cuda: bool, gpuCount: nat, mps: bool)
    ensures forall name :: name in DeviceMap(cuda, gpuCount, mps) <==> name in DeviceList(cuda, gpuCount, mps)
  {
    var g := if cuda then gpuCount else 0;
    GpuMapAt(g);
    GpuNamesAt(g);
    var m := DeviceMap(cuda, gpuCount, mps);
    var d := DeviceList(cuda, gpuCount, mps);
    forall name ensures name in m <==> name in d {
      if name in m && name != "CPU" && name != "MPS" {
        var i :| 0 <= i < g && name == GpuName(i);
        assert d[i] == name;
      }
      if name in d && name != "CPU" && name != "MPS" {
        var i :| 0 <= i < |d| && d[i] == name;
        assert i < g;
      }
    }
  }

  /** The mapping is keyed by exactly the offered names, and maps `GPU i` to
    * `"i"`, `MPS` to `"mps"` and `CPU` to `"cpu"`. */
  lemma DeviceMapShape(cuda: bool, gpuCount: nat, mps: bool)
    ensures var m := DeviceMap(cuda, gpuCount, mps);
      var d := DeviceList(cuda, gpuCount, mps);
      (forall name :: name in m <==> name in d)
      && (forall i :: 0 <= i < (if cuda then gpuCount else 0) ==> GpuName(i) in m && m[GpuName(i)] == NatToString(i))
      && (mps ==> "MPS" in m && m["MPS"] == "mps")
      && "CPU" in m && m["CPU"] == "cpu"
  {
    var g := if cuda then gpuCount else 0;
    GpuMapAt(g);
    forall i | 0 <= i < g ensures GpuName(i) != "MPS" && GpuName(i) != "CPU" {
      GpuNameShape(i);
    }
    DeviceMapKeys(cuda, gpuCount, mps);
  }

  /** `self.device_mapping.get(name, "cpu")`. */
  function ResolveDevice(mapping: map<string, string>, name: string): (r: string)
    ensures r == "cpu" || r in mapping.Values
    ensures name in mapping ==> r == mapping[name]
  {
    if name in mapping then mapping[name] else "cpu"
  }

  /** Starting on a device from the offered list trains on its identifier;
    * a name that was never offered trains on the CPU. */
  lemma ResolveOffered(cuda: bool, gpuCount: nat, mps: bool, name: string)
    ensures var m := DeviceMap(cuda, gpuCount, mps);
      var d := DeviceList(cuda, gpuCount, mps);
      (name == "CPU" ==> ResolveDevice(m, name) == "cpu")
      && (mps && name == "MPS" ==> ResolveDevice(m, name) == "mps")
      && (forall i :: 0 <= i < (if cuda then gpuCount else 0) && name == GpuName(i) ==> ResolveDevice(m, name) == NatToString(i))
      && (name !in d ==> ResolveDevice(m, name) == "cpu")
  {
    DeviceMapShape(cuda, gpuCount, mps);
  }

  /** The values `start_training` passes to the training thread. */
  datatype Params = Params(data: string, model: string, epochs: int, batch: int, imgsz: int, device: string, project: string)

  class TrainingModule {
    var dataCache: map<Series, seq<real>>
    var deviceMapping: map<string, string>
    /** The updates received since the last reset. */
    ghost var updates: seq<Metrics>

    ghost predicate Valid()
      reads this
    {
      dataCache == CacheOf(updates)
    }

    constructor ()
      ensures Valid() && updates == [] && deviceMapping == map[]
    {
      dataCache := CacheOf([]);
      deviceMapping := map[];
      updates := [];
    }

    /** `reset_data`: every series empty. */
    method ResetData()
      modifies this
      ensures Valid() && updates == []
      ensures forall k :: k in AllSeries ==> dataCache[k] == []
      ensures deviceMapping == old(deviceMapping)
    {
      dataCache := map k | k in AllSeries :: [];
      updates := [];
    }

    /** The cache part of `update_data_and_chart`: one value appended to each series. */
    method UpdateData(m: Metrics)
      requires Valid()
      modifies this
      ensures Valid() && updates == old(updates) + [m]
      ensures dataCache == Appended(old(dataCache), m)
      ensures deviceMapping == old(deviceMapping)
    {
      CacheAppended(updates, m);
      NineAppends(dataCache, m);
      var c := dataCache;
      c := c[Epoch := c[Epoch] + [m.epoch]];
      c := c[BoxLoss := c[BoxLoss] + [m.boxLoss]];
      c := c[ClsLoss := c[ClsLoss] + [m.clsLoss]];
      c := c[DflLoss := c[DflLoss] + [m.dflLoss]];
      c := c[Map50 := c[Map50] + [m.map50]];
      c := c[Map5095 := c[Map5095] + [m.map5095]];
      c := c[Precision := c[Precision] + [m.precision]];
      c := c[Recall := c[Recall] + [m.recall]];
      c := c[GpuMem := c[GpuMem] + [m.gpuMem]];
      dataCache := c;
      updates := updates + [m];
    }

    /** `detect_available_devices` with the answers of the CUDA and MPS queries. */
    method DetectAvailableDevices(cuda: bool, gpuCount: nat, mps: bool) returns (devices: seq<string>, default: string)
      modifies this
      ensures devices == DeviceList(cuda, gpuCount, mps)
      ensures default == DefaultDevice(cuda, gpuCount, mps)
      ensures deviceMapping == DeviceMap(cuda, gpuCount, mps)
      ensures dataCache == old(dataCache) && updates == old(updates)
    {
      devices := [];
      var mapping: map<string, string> := map[];
      default := "CPU";
      if cuda {
        var i := 0;
        while i < gpuCount
          invariant 0 <= i <= gpuCount
          invariant devices == GpuNames(i) && mapping == GpuMap(i)
        {
          var name := GpuName(i);
          devices := devices + [name];
          mapping := mapping[name := NatToString(i)];
          i := i + 1;
        }
        if devices != [] {
          default := devices[0];
          GpuNamesAt(gpuCount);
        }
      }
      if mps {
        devices := devices + ["MPS"];
        mapping := mapping["MPS" := "mps"];
        if default == "CPU" {
          default := "MPS";
        }
      }
      devices := devices + ["CPU"];
      mapping := mapping["CPU" := "cpu"];
      deviceMapping := mapping;
    }

    /** The checks of `start_training`: the selected display name is resolved
      * through the mapping, and a missing data file refuses the start unless it
      * is the built-in `coco128.yaml`. A start clears the series. */
    method StartTraining(selected: string, data: string, dataExists: bool,
                         model: string, epochs: int, batch: int, imgsz: int, project: string)
      returns (started: Option<Params>)
      requires Valid()
      modifies this
      ensures Valid() && deviceMapping == old(deviceMapping)
      ensures started.Some? <==> dataExists || data == "coco128.yaml"
      ensures started.Some? ==>
        started.value == Params(data, model, epochs, batch, imgsz, ResolveDevice(deviceMapping, selected), project)
        && updates == []
      ensures started.None? ==> dataCache == old(dataCache) && updates == old(updates)
    {
      var device := ResolveDevice(deviceMapping, selected);
      var params := Params(data, model, epochs, batch, imgsz, device, project);
      if !dataExists && data != "coco128.yaml" {
        return None;
      }
      ResetData();
      return Some(params);
    }
  }
}
