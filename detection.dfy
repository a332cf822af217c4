/** The detection tab's playback and source controls (detection.py): the
  * speed, pause and position setters of the video player thread, the screen
  * capture's monitor choice, and the de-duplication of custom models in the
  * model combo box. */
module Detection {
  import opened Wrappers
  import opened Numeric
  import opened LabelPaths

  const MinSpeed: real := 0.1
  const MaxSpeed: real := 3.0

  /** `max(0.1, min(3.0, speed))`: the speed kept within `[0.1, 3.0]`, unchanged
    * inside that range and pinned to the nearer bound outside it. */
  function ClampSpeed(s: real): (r: real)
    ensures MinSpeed <= r <= MaxSpeed
    ensures MinSpeed <= s <= MaxSpeed ==> r == s
    ensures s < MinSpeed ==> r == MinSpeed
    ensures MaxSpeed < s ==> r == MaxSpeed
  {
    ClampReal(s, MinSpeed, MaxSpeed)
  }

  /** Setting the same speed twice leaves what the first setting left. */
  lemma ClampSpeedIdempotent(s: real)
    ensures ClampSpeed(ClampSpeed(s)) == ClampSpeed(s)
  {
  }

  /** `max(0, min(total_frames - 1, n))`: a frame of the video, or frame 0 when
    * the video has at most one frame (or its length is not known yet). */
  function SeekTarget(n: int, total: int): (r: int)
    ensures 0 <= r && r <= MaxInt(0, total - 1)
    ensures total <= 1 ==> r == 0
    ensures 0 <= n < total ==> r == n
    ensures n < 0 ==> r == 0
    ensures 1 <= total <= n ==> r == total - 1
  {
    MaxInt(0, MinInt(total - 1, n))
  }

  /** Seeking to where a seek landed stays there. */
  lemma SeekIdempotent(n: int, total: int)
    ensures SeekTarget(SeekTarget(n, total), total) == SeekTarget(n, total)
  {
  }

  /** `int(seconds * fps * speed)`: the frames skipped by a jump. */
  function Jump(seconds: real, fps: real, speed: real): (r: int)
    ensures 0.0 <= seconds * fps * speed ==> 0 <= r
  {
    Trunc(seconds * fps * speed)
  }

  /** The frame rate the jumps use: the capture's reported rate when the video
    * opens, 30 otherwise. */
  function JumpFps(isOpen: bool, reported: real): real
  {
    if isOpen then reported else 30.0
  }

  /** A fast forward that stays inside the video is undone by a rewind of the
    * same length; one that passes the end lands on the last frame. */
  lemma ForwardThenRewind(current: int, total: int, jump: int)
    requires 0 <= current && 0 <= jump
    ensures current + jump < total ==> SeekTarget(SeekTarget(current + jump, total) - jump, total) == current
    ensures 1 <= total <= current + jump ==> SeekTarget(current + jump, total) == total - 1
  {
  }

  /** The monitor `VideoThread.run` captures, as a position in the list of
    * `count` monitors: an index past the end falls back to 1; a negative index
    * counts from the end as Python's indexing does; an index still outside the
    * list falls back to 0 (the `except` branch); with no monitor at all there is
    * none. */
  function MonitorChoice(index: int, count: nat): (r: Option<nat>)
    ensures r.None? <==> count == 0
    ensures r.Some? ==> r.value < count
    ensures 0 <= index < count ==> r == Some(index)
    ensures index >= count >= 2 ==> r == Some(1)
    ensures 0 <= count + index && index < 0 ==> r == Some(count + index)
    ensures count > 0 && (count + index < 0 || (index >= count && count == 1)) ==> r == Some(0)
  {
    var target := if index >= count then 1 else index;
    if 0 <= target < count then Some(target)
    else if 0 <= count + target && target < 0 then Some(count + target)
    else if count > 0 then Some(0)
    else None
  }

  /** `VideoPlayerThread`: the fields its control setters change. */
  class VideoPlayerThread {
    var speed: real
    /** `_pause_flag`. */
    var paused: bool
    var currentFrame: int
    var totalFrames: int

    ghost predicate Valid()
      reads this
    {
      MinSpeed <= speed <= MaxSpeed && 0 <= currentFrame
    }

    constructor ()
      ensures Valid()
      ensures speed == 1.0 && !paused && currentFrame == 0 && totalFrames == 0
    {
      speed := 1.0;
      paused := false;
      currentFrame := 0;
      totalFrames := 0;
    }

    /** `set_speed`. */
    method SetSpeed(s: real)
      requires Valid()
      modifies this
      ensures Valid()
      ensures speed == ClampSpeed(s)
      ensures paused == old(paused) && currentFrame == old(currentFrame) && totalFrames == old(totalFrames)
    {
      speed := ClampSpeed(s);
    }

    /** `pause`. */
    method Pause()
      requires Valid()
      modifies this
      ensures Valid() && paused
      ensures speed == old(speed) && currentFrame == old(currentFrame) && totalFrames == old(totalFrames)
    {
      paused := true;
    }

    /** `resume`. */
    method Resume()
      requires Valid()
      modifies this
      ensures Valid() && !paused
      ensures speed == old(speed) && currentFrame == old(currentFrame) && totalFrames == old(totalFrames)
    {
      paused := false;
    }

    /** `toggle_pause`: toggling twice restores the flag. */
    method TogglePause()
      requires Valid()
      modifies this
      ensures Valid() && paused == !old(paused)
      ensures speed == old(speed) && currentFrame == old(currentFrame) && totalFrames == old(totalFrames)
    {
      paused := !paused;
    }

    /** `seek`. */
    method Seek(n: int)
      requires Valid()
      modifies this
      ensures Valid() && currentFrame == SeekTarget(n, totalFrames)
      ensures speed == old(speed) && paused == old(paused) && totalFrames == old(totalFrames)
    {
      currentFrame := MaxInt(0, MinInt(totalFrames - 1, n));
    }

    /** `fast_forward(seconds)`. `isOpen` says whether the capture it opens on the
      * video succeeds and `reported` is the rate that capture reports. */
    method FastForward(seconds: real, isOpen: bool, reported: real)
      requires Valid()
      modifies this
      ensures Valid()
      ensures isOpen ==> currentFrame == SeekTarget(old(currentFrame) + Jump(seconds, reported, speed), totalFrames)
      ensures !isOpen ==> currentFrame == SeekTarget(old(currentFrame) + Jump(seconds, 30.0, speed), totalFrames)
      ensures speed == old(speed) && paused == old(paused) && totalFrames == old(totalFrames)
    {
      var fps := JumpFps(isOpen, reported);
      Seek(currentFrame + Jump(seconds, fps, speed));
    }

    /** `rewind(seconds)`. `isOpen` says whether the capture it opens on the
      * video succeeds and `reported` is the rate that capture reports. */
    method Rewind(seconds: real, isOpen: bool, reported: real)
      requires Valid()
      modifies this
      ensures Valid()
      ensures isOpen ==> currentFrame == SeekTarget(old(currentFrame) - Jump(seconds, reported, speed), totalFrames)
      ensures !isOpen ==> currentFrame == SeekTarget(old(currentFrame) - Jump(seconds, 30.0, speed), totalFrames)
      ensures speed == old(speed) && paused == old(paused) && totalFrames == old(totalFrames)
    {
      var fps := JumpFps(isOpen, reported);
      Seek(currentFrame - Jump(seconds, fps, speed));
    }

    /** The frame count `run` records once the video opens. */
    method OpenVideo(frameCount: int)
      requires Valid()
      modifies this
      ensures Valid() && totalFrames == frameCount
      ensures speed == old(speed) && paused == old(paused) && currentFrame == old(currentFrame)
    {
      totalFrames := frameCount;
    }
  }

  /** The first position from `max(from, 2)` on whose text is `name`. */
  function ExistingIndex(items: seq<string>, name: string, from: nat): (r: Option<nat>)
    ensures r.Some? ==> 2 <= r.value < |items| && from <= r.value && items[r.value] == name
    ensures r.Some? ==> forall j :: 2 <= j < r.value && from <= j ==> items[j] != name
    ensures r.None? <==> forall j :: 2 <= j < |items| && from <= j ==> items[j] != name
    decreases |items| - from
  {
    if from >= |items| then None
    else if from >= 2 && items[from] == name then Some(from)
    else ExistingIndex(items, name, from + 1)
  }

  /** The combo's items and selected position after choosing a custom model
    * named `name`: the first entry past the two built-in models with that text
    * is selected, or a new entry is appended and selected. */
  function CustomChoice(items: seq<string>, name: string): (r: (seq<string>, nat))
    ensures r.1 < |r.0| && r.0[r.1] == name
    ensures r.0 == items || r.0 == items + [name]
  {
    match ExistingIndex(items, name, 0)
    case Some(i) => (items, i)
    case None => (items + [name], |items|)
  }

  /** No text appears twice among the entries past the two built-in models. */
  predicate DistinctCustom(items: seq<string>)
  {
    forall i, j :: 2 <= i < j < |items| ==> items[i] != items[j]
  }

  /** Choosing a custom model selects an entry showing its name, adds an entry
    * exactly when no entry past the first two shows that name, and never
    * creates a duplicate past the first two entries. */
  lemma {:induction false} CustomChoiceKeepsDistinct(items: seq<string>, name: string)
    ensures var (after, selected) := CustomChoice(items, name);
      selected < |after| && after[selected] == name
      && (after == items <==> exists i :: 2 <= i < |items| && items[i] == name)
      && (after != items ==> after == items + [name] && selected == |items|)
      && (after == items ==> 2 <= selected && forall j :: 2 <= j < selected ==> items[j] != name)
      && (DistinctCustom(items) ==> DistinctCustom(after))
  {
    var r := ExistingIndex(items, name, 0);
    var (after, selected) := CustomChoice(items, name);
    if r.None? {
      assert after != items by {
        assert |after| == |items| + 1;
      }
      forall i, j | 2 <= i < j < |after| && DistinctCustom(items) ensures after[i] != after[j] {
        if j == |items| {
          assert after[i] == items[i];
        }
      }
    }
  }

  /** The texts of the three entries the model combo starts with. */
  const DefaultModel: string := "yolov8n.pt"
  const SmallModel: string := "yolov8s.pt"
  const CustomEntry: string := "自定义..."

  /** The combo's shape: the two built-in models and the custom entry first,
    * none of them with a stored file, one stored file or none per entry, and
    * no text twice past the first two entries. */
  predicate ComboShape(items: seq<string>, data: seq<Option<Path>>)
  {
    |items| == |data| && 3 <= |items|
    && items[0] == DefaultModel && items[1] == SmallModel && items[2] == CustomEntry
    && data[0].None? && data[1].None? && data[2].None?
    && DistinctCustom(items)
  }

  /** `full_path if full_path else text`: the file stored with entry `i`, else
    * its text. */
  function EntryPath(items: seq<string>, data: seq<Option<Path>>, i: nat): Path
    requires i < |items| == |data|
  {
    if data[i].Some? then data[i].value else [items[i]]
  }

  /** The selected position and model path after `select_detect_model` loads
    * entry `i` (any entry but the custom one): the entry's file when it loads;
    * otherwise the first entry is selected, and when that changes the text the
    * handler runs again and sets the default model's path. */
  function AfterLoad(items: seq<string>, data: seq<Option<Path>>, i: nat, loadable: set<Path>): (r: (nat, Path))
    requires i < |items| == |data| && 0 < |items| && data[0].None?
    ensures EntryPath(items, data, i) in loadable ==> r == (i, EntryPath(items, data, i))
    ensures EntryPath(items, data, i) !in loadable ==> r.0 == 0
    ensures EntryPath(items, data, i) !in loadable && items[i] != items[0] ==> r.1 == EntryPath(items, data, 0)
    ensures EntryPath(items, data, i) !in loadable && items[i] == items[0] ==> r.1 == EntryPath(items, data, i)
  {
    var p := EntryPath(items, data, i);
    if p in loadable then (i, p)
    else if items[i] == items[0] then (0, p)
    else (0, [items[0]])
  }

  /** The combo and the model path after the custom branch of
    * `select_detect_model`, entered from position `index` with the chosen
    * `file`: the entry is found or appended with the file stored, and selected;
    * when that changes the text the handler runs first for that entry; then
    * the model path is the file, and a failed load selects the first entry,
    * which runs the handler once more when that changes the text. */
  function CustomOutcome(items: seq<string>, data: seq<Option<Path>>, index: nat, file: Path, loadable: set<Path>)
    : (r: (seq<string>, seq<Option<Path>>, nat, Path))
    requires ComboShape(items, data) && index < |items| && IsFilePath(file)
    ensures ComboShape(r.0, r.1) && r.2 < |r.0|
    ensures r.0 == CustomChoice(items, Name(file)).0
  {
    CustomChoiceKeepsDistinct(items, Name(file));
    var (after, selected) := CustomChoice(items, Name(file));
    var afterData := if selected == |items| then data + [Some(file)] else data;
    var reentered := after[selected] != after[index] && after[selected] != CustomEntry;
    var first := if reentered then AfterLoad(after, afterData, selected, loadable).0 else selected;
    if file in loadable then (after, afterData, first, file)
    else if after[first] == after[0] then (after, afterData, 0, file)
    else (after, afterData, 0, [after[0]])
  }

  /** Choosing a file from the custom entry, when the selected entry stores
    * that very file (it is new, or was added for the same file before): a
    * load keeps that entry selected, a failed load selects the first entry,
    * and either way the model path is the chosen file. */
  lemma CustomLoadOfOwnEntry(items: seq<string>, data: seq<Option<Path>>, index: nat, file: Path, loadable: set<Path>)
    requires ComboShape(items, data) && index < |items| && items[index] == CustomEntry
    requires IsFilePath(file) && Name(file) != CustomEntry
    requires var selected := CustomChoice(items, Name(file)).1; selected == |items| || (selected < |data| && data[selected] == Some(file))
    ensures var r := CustomOutcome(items, data, index, file, loadable);
      var selected := CustomChoice(items, Name(file)).1;
      r.3 == file && r.2 == (if file in loadable then selected else 0)
  {
    CustomChoiceKeepsDistinct(items, Name(file));
    var (after, selected) := CustomChoice(items, Name(file));
    var afterData := if selected == |items| then data + [Some(file)] else data;
    assert EntryPath(after, afterData, selected) == file;
    assert after[index] == CustomEntry;
  }

  /** The part of `DetectionModule` that choosing a model changes: the model
    * combo's entries, the file stored with each (`itemData`), its selected
    * position and the model path. */
  class DetectionModule {
    var comboItems: seq<string>
    var comboData: seq<Option<Path>>
    var comboIndex: int
    var modelPath: Path

    ghost predicate Valid()
      reads this
    {
      ComboShape(comboItems, comboData) && 0 <= comboIndex < |comboItems|
    }

    constructor ()
      ensures Valid()
      ensures comboItems == [DefaultModel, SmallModel, CustomEntry] && comboData == [None, None, None]
      ensures comboIndex == 0 && modelPath == [DefaultModel]
    {
      comboItems := [DefaultModel, SmallModel, CustomEntry];
      comboData := [None, None, None];
      comboIndex := 0;
      modelPath := [DefaultModel];
    }

    /** `select_detect_model` for the selected entry when it is not the custom
      * one. `loadable` holds the files the model loads from. */
    method SelectListedModel(loadable: set<Path>)
      requires Valid() && comboItems[comboIndex] != CustomEntry
      modifies this`comboIndex, this`modelPath
      ensures Valid()
      ensures (comboIndex, modelPath) == AfterLoad(comboItems, comboData, old(comboIndex), loadable)
      decreases if comboItems[comboIndex] == comboItems[0] then 0 else 1, 1
    {
      modelPath := EntryPath(comboItems, comboData, comboIndex);
      if modelPath !in loadable {
        SelectFirst(loadable);
      }
    }

    /** `setCurrentIndex(0)` after a failed load: it runs the handler again
      * (for the default model) only when it changes the selected text. */
    method SelectFirst(loadable: set<Path>)
      requires Valid()
      modifies this`comboIndex, this`modelPath
      ensures Valid() && comboIndex == 0
      ensures old(comboItems[comboIndex]) == comboItems[0] ==> modelPath == old(modelPath)
      ensures old(comboItems[comboIndex]) != comboItems[0] ==> modelPath == [comboItems[0]]
      decreases if comboItems[comboIndex] == comboItems[0] then 0 else 1, 0
    {
      var changed := comboItems[comboIndex] != comboItems[0];
      comboIndex := 0;
      if changed {
        SelectListedModel(loadable);
      }
    }

    /** The custom branch of `select_detect_model`, given the file the dialog
      * returned (none when it was cancelled). */
    method SelectCustomModel(chosen: Option<Path>, loadable: set<Path>)
      requires Valid()
      requires chosen.Some? ==> IsFilePath(chosen.value)
      modifies this
      ensures Valid()
      ensures chosen.None? ==>
        comboItems == old(comboItems) && comboData == old(comboData)
        && comboIndex == old(comboIndex) && modelPath == old(modelPath)
      ensures chosen.Some? ==>
        (comboItems, comboData, comboIndex, modelPath)
        == CustomOutcome(old(comboItems), old(comboData), old(comboIndex), chosen.value, loadable)
    {
      if chosen.None? {
        return;
      }
      var file := chosen.value;
      var name := Name(file);
      CustomChoiceKeepsDistinct(comboItems, name);
      var existing := -1;
      var i := 0;
      while i < |comboItems|
        invariant 0 <= i <= |comboItems|
        invariant ExistingIndex(comboItems, name, 0) == ExistingIndex(comboItems, name, i)
      {
        if i >= 2 && comboItems[i] == name {
          existing := i;
          break;
        }
        i := i + 1;
      }
      var target: int;
      if existing != -1 {
        target := existing;
      } else {
        comboItems := comboItems + [name];
        comboData := comboData + [chosen];
        target := |comboItems| - 1;
      }
      if comboItems[target] != comboItems[comboIndex] && comboItems[target] != CustomEntry {
        comboIndex := target;
        SelectListedModel(loadable);
      } else {
        comboIndex := target;
      }
      modelPath := file;
      if file !in loadable {
        SelectFirst(loadable);
      }
    }
  }
}
