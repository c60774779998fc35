/**
 * The configuration tree: nested dictionaries addressed by dotted paths
 * such as "camera.index". `get` walks down the tree and falls back to a
 * default, `set` writes a leaf and creates missing intermediate
 * dictionaries, and a user configuration is deep-merged over the defaults.
 *
 * Dictionaries are values here (`map`), so an in-place update of a nested
 * dictionary is a rebuild of the path down to it.
 */
module ConfigStore {
  import opened Wrappers

  /** A YAML value as the configuration holds it. */
  datatype Value =
    | Null
    | Bool(b: bool)
    | Int(i: int)
    | Real(r: real)
    | Str(s: string)
    | List(items: seq<Value>)
    | Dict(entries: map<string, Value>)

  // ---------------------------------------------------------------------
  // Dotted paths
  // ---------------------------------------------------------------------

  /** `s.split('.')`: the pieces between dots, empty pieces included. */
  function Split(s: string): (parts: seq<string>)
    ensures |parts| >= 1
    ensures forall i :: 0 <= i < |parts| ==> '.' !in parts[i]
  {
    if s == [] then [""]
    else if s[0] == '.' then [""] + Split(s[1..])
    else
      var rest := Split(s[1..]);
      [[s[0]] + rest[0]] + rest[1..]
  }

  /** `'.'.join(parts)`. */
  function Join(parts: seq<string>): string
    requires |parts| >= 1
  {
    if |parts| == 1 then parts[0] else parts[0] + "." + Join(parts[1..])
  }

  /** Joining the pieces of a split gives the path back. */
  lemma {:induction false} JoinSplit(s: string)
    ensures Join(Split(s)) == s
  {
    if s == [] {
    } else if s[0] == '.' {
      JoinSplit(s[1..]);
      assert Split(s) == [""] + Split(s[1..]);
    } else {
      var rest := Split(s[1..]);
      JoinSplit(s[1..]);
      if |rest| == 1 {
        assert Join(Split(s)) == [s[0]] + rest[0];
      } else {
        assert Split(s)[1..] == rest[1..];
        assert Join(Split(s)) == [s[0]] + rest[0] + "." + Join(rest[1..]);
        assert Join(rest) == rest[0] + "." + Join(rest[1..]);
      }
      assert s == [s[0]] + s[1..];
    }
  }

  /** Splitting a join of dot-free pieces gives the pieces back. */
  lemma {:induction false} SplitJoin(parts: seq<string>)
    requires |parts| >= 1
    requires forall i :: 0 <= i < |parts| ==> '.' !in parts[i]
    ensures Split(Join(parts)) == parts
  {
    if |parts| == 1 {
      SplitSingle(parts[0]);
      assert parts == [parts[0]];
    } else {
      SplitJoin(parts[1..]);
      SplitPiece(parts[0], Join(parts[1..]));
      assert [parts[0]] + parts[1..] == parts;
    }
  }

  /** The tail of a dot-free piece is dot-free. */
  lemma NoDotInTail(p: string)
    requires p != [] && '.' !in p
    ensures '.' !in p[1..]
  {
    forall i | 0 <= i < |p[1..]| ensures p[1..][i] != '.' {
      assert p[1..][i] == p[i + 1];
    }
  }

  /** A dot-free piece splits into itself. */
  lemma {:induction false} SplitSingle(p: string)
    requires '.' !in p
    ensures Split(p) == [p]
    decreases |p|
  {
    if p != [] {
      NoDotInTail(p);
      SplitSingle(p[1..]);
      assert [p[0]] + p[1..] == p;
    }
  }

  /** Splitting `p + "." + tail`, where `p` has no dot: `p` is the first piece. */
  lemma {:induction false} SplitPiece(p: string, tail: string)
    requires '.' !in p
    ensures Split(p + "." + tail) == [p] + Split(tail)
    decreases |p|
  {
    var s := p + "." + tail;
    if p == [] {
      assert s[1..] == tail;
    } else {
      NoDotInTail(p);
      SplitPiece(p[1..], tail);
      assert s[0] == p[0];
      assert s[1..] == p[1..] + "." + tail;
      assert [p[0]] + p[1..] == p;
    }
  }

  // ---------------------------------------------------------------------
  // Reading: Config.get
  // ---------------------------------------------------------------------

  /**
   * The value at `keys` below `v`, or `default` as soon as a key is missing
   * or the value reached is not a dictionary.
   */
  function GetPath(v: Value, keys: seq<string>, default: Value): (r: Value)
    ensures !Reaches(v, keys) ==> r == default
    decreases |keys|
  {
    if keys == [] then v
    else if v.Dict? && keys[0] in v.entries then GetPath(v.entries[keys[0]], keys[1..], default)
    else default
  }

  /** `keys` leads through dictionaries that hold each key in turn. */
  predicate Reaches(v: Value, keys: seq<string>)
  {
    keys == [] || (v.Dict? && keys[0] in v.entries && Reaches(v.entries[keys[0]], keys[1..]))
  }

  /** A read returns the default exactly when the path is broken, unless the value found is the default itself. */
  lemma {:induction false} GetPathFallsBack(v: Value, keys: seq<string>, default: Value)
    ensures !Reaches(v, keys) ==> GetPath(v, keys, default) == default
    ensures Reaches(v, keys) ==> GetPath(v, keys, default) == GetPath(v, keys, Null)
  {
    if keys != [] && v.Dict? && keys[0] in v.entries {
      GetPathFallsBack(v.entries[keys[0]], keys[1..], default);
    }
  }

  /** A path through a path: reading `p + q` reads `q` below what `p` reaches. */
  lemma {:induction false} GetPathConcat(v: Value, p: seq<string>, q: seq<string>, default: Value)
    requires Reaches(v, p)
    ensures GetPath(v, p + q, default) == GetPath(GetPath(v, p, default), q, default)
  {
    if p != [] {
      assert (p + q)[0] == p[0];
      assert (p + q)[1..] == p[1..] + q;
      GetPathConcat(v.entries[p[0]], p[1..], q, default);
      assert GetPath(v, p + q, default) == GetPath(v.entries[p[0]], p[1..] + q, default);
      assert GetPath(v, p, default) == GetPath(v.entries[p[0]], p[1..], default);
    } else {
      assert p + q == q;
    }
  }

  // ---------------------------------------------------------------------
  // Writing: Config.set
  // ---------------------------------------------------------------------

  /** Every intermediate on the path that already exists is a dictionary. */
  predicate IntermediatesAreDicts(m: map<string, Value>, keys: seq<string>)
    decreases |keys|
  {
    |keys| <= 1 ||
    (keys[0] !in m || (m[keys[0]].Dict? && IntermediatesAreDicts(m[keys[0]].entries, keys[1..])))
  }

  /**
   * `set`: store `value` at `keys`, creating an empty dictionary for every
   * missing intermediate key. An existing intermediate that is not a
   * dictionary cannot be indexed or assigned into: a `TypeError`.
   */
  function SetPath(m: map<string, Value>, keys: seq<string>, value: Value): (r: Result<map<string, Value>>)
    requires |keys| >= 1
    ensures r.Success? <==> IntermediatesAreDicts(m, keys)
    ensures r.Failure? ==> r.error == "TypeError"
    ensures r.Success? ==> r.value.Keys == m.Keys + {keys[0]}
    ensures r.Success? ==> forall k :: k in m && k != keys[0] ==> r.value[k] == m[k]
    decreases |keys|
  {
    if |keys| == 1 then Success(m[keys[0] := value])
    else
      var child := if keys[0] in m then m[keys[0]] else Dict(map[]);
      if !child.Dict? then Failure("TypeError")
      else
        match SetPath(child.entries, keys[1..], value)
        case Failure(e) => Failure(e)
        case Success(c) => Success(m[keys[0] := Dict(c)])
  }

  /** Writing into a fresh dictionary never fails. */
  lemma {:induction false} SetPathIntoEmpty(keys: seq<string>, value: Value)
    requires |keys| >= 1
    ensures SetPath(map[], keys, value).Success?
  {
    if |keys| > 1 {
      SetPathIntoEmpty(keys[1..], value);
    }
  }

  /** After a successful `set`, `get` of the same path returns the stored value. */
  lemma {:induction false} GetAfterSet(m: map<string, Value>, keys: seq<string>, value: Value, default: Value)
    requires |keys| >= 1
    requires SetPath(m, keys, value).Success?
    ensures GetPath(Dict(SetPath(m, keys, value).value), keys, default) == value
    ensures Reaches(Dict(SetPath(m, keys, value).value), keys)
    decreases |keys|
  {
    if |keys| > 1 {
      var child := if keys[0] in m then m[keys[0]] else Dict(map[]);
      GetAfterSet(child.entries, keys[1..], value, default);
    }
  }

  /** Two paths part ways at some position that both of them reach. */
  predicate Diverge(p: seq<string>, q: seq<string>)
  {
    p != [] && q != [] && (p[0] != q[0] || Diverge(p[1..], q[1..]))
  }

  /** A `set` leaves every path that parts from the written one as it was. */
  lemma {:induction false} SetLeavesOtherPaths(m: map<string, Value>, keys: seq<string>, value: Value,
                                               other: seq<string>, default: Value)
    requires |keys| >= 1
    requires SetPath(m, keys, value).Success?
    requires Diverge(keys, other)
    ensures GetPath(Dict(SetPath(m, keys, value).value), other, default) == GetPath(Dict(m), other, default)
    decreases |keys|
  {
    var m' := SetPath(m, keys, value).value;
    if other[0] != keys[0] {
      // the entry under other[0] is untouched
    } else {
      assert |keys| > 1;
      var child := if keys[0] in m then m[keys[0]] else Dict(map[]);
      var c := SetPath(child.entries, keys[1..], value).value;
      assert m'[keys[0]] == Dict(c);
      if other[1..] == [] {
        assert false;
      }
      SetLeavesOtherPaths(child.entries, keys[1..], value, other[1..], default);
      if keys[0] !in m {
        // the old read stops at the missing key; the new one finds an empty
        // dictionary below which nothing but the written path exists
        assert GetPath(Dict(map[]), other[1..], default) == default;
      }
    }
  }

  // ---------------------------------------------------------------------
  // Merging: Config._deep_merge
  // ---------------------------------------------------------------------

  /**
   * `_deep_merge(base, update)`: every key of `update` takes the update's
   * value, except where both sides hold dictionaries, which are merged in
   * turn; keys only in `base` keep their values.
   */
  function DeepMerge(base: map<string, Value>, update: map<string, Value>): (r: map<string, Value>)
    ensures r.Keys == base.Keys + update.Keys
    decreases Dict(update)
  {
    map k | k in base.Keys + update.Keys ::
      if k in update then
        if k in base && base[k].Dict? && update[k].Dict? then
          assert Dict(update[k].entries) == update[k];
          Dict(DeepMerge(base[k].entries, update[k].entries))
        else update[k]
      else base[k]
  }

  /** The value a merge gives to a key of the update. */
  function MergedEntry(base: map<string, Value>, update: map<string, Value>, k: string): Value
    requires k in update
  {
    if k in base && base[k].Dict? && update[k].Dict? then
      Dict(DeepMerge(base[k].entries, update[k].entries))
    else update[k]
  }

  /** Both halves of the merge rule, key by key. */
  lemma MergeEntries(base: map<string, Value>, update: map<string, Value>, k: string)
    requires k in base.Keys + update.Keys
    ensures k in update ==> DeepMerge(base, update)[k] == MergedEntry(base, update, k)
    ensures k !in update ==> DeepMerge(base, update)[k] == base[k]
    ensures k in update && !(k in base && base[k].Dict? && update[k].Dict?) ==>
              DeepMerge(base, update)[k] == update[k]
  {
  }

  /** Merging an empty update changes nothing. */
  lemma MergeEmptyIsIdentity(base: map<string, Value>)
    ensures DeepMerge(base, map[]) == base
  {
  }

  /** Merging into an empty base gives the update itself. */
  lemma MergeIntoEmpty(update: map<string, Value>)
    ensures DeepMerge(map[], update) == update
  {
  }

  /**
   * A leaf of the update, reached through dictionaries of the update, is
   * what a read of the merged tree finds.
   */
  predicate LeafPath(update: map<string, Value>, keys: seq<string>)
    decreases |keys|
  {
    |keys| >= 1 && keys[0] in update &&
    (if |keys| == 1 then !update[keys[0]].Dict?
     else update[keys[0]].Dict? && LeafPath(update[keys[0]].entries, keys[1..]))
  }

  lemma {:induction false} MergeThenGetLeaf(base: map<string, Value>, update: map<string, Value>,
                                            keys: seq<string>, default: Value)
    requires LeafPath(update, keys)
    ensures GetPath(Dict(DeepMerge(base, update)), keys, default) == GetPath(Dict(update), keys, default)
    ensures !GetPath(Dict(update), keys, default).Dict?
    decreases |keys|
  {
    var k := keys[0];
    var merged := DeepMerge(base, update);
    MergeEntries(base, update, k);
    if |keys| > 1 && k in base && base[k].Dict? {
      MergeThenGetLeaf(base[k].entries, update[k].entries, keys[1..], default);
    } else if |keys| > 1 {
      LeafGetIsLeaf(update[k].entries, keys[1..], default);
    }
  }

  lemma {:induction false} LeafGetIsLeaf(update: map<string, Value>, keys: seq<string>, default: Value)
    requires LeafPath(update, keys)
    ensures !GetPath(Dict(update), keys, default).Dict?
    decreases |keys|
  {
    if |keys| > 1 {
      LeafGetIsLeaf(update[keys[0]].entries, keys[1..], default);
    }
  }

  /** A path that only the base holds reads the same after the merge. */
  lemma {:induction false} MergeKeepsBaseOnly(base: map<string, Value>, update: map<string, Value>,
                                              keys: seq<string>, default: Value)
    requires |keys| >= 1 && keys[0] !in update
    ensures GetPath(Dict(DeepMerge(base, update)), keys, default) == GetPath(Dict(base), keys, default)
  {
    if keys[0] in base {
      MergeEntries(base, update, keys[0]);
    }
  }

  /**
   * `_deep_merge` as the source runs it: a loop over the update's entries
   * that assigns into `base`, recursing where both sides are dictionaries.
   */
  method MergeInto(base: map<string, Value>, update: map<string, Value>) returns (merged: map<string, Value>)
    ensures merged == DeepMerge(base, update)
    decreases Dict(update)
  {
    merged := base;
    var todo := update.Keys;
    while todo != {}
      invariant todo <= update.Keys
      invariant merged.Keys == base.Keys + (update.Keys - todo)
      invariant forall k :: k in merged && k in update && k !in todo ==> merged[k] == MergedEntry(base, update, k)
      invariant forall k :: k in merged && (k !in update || k in todo) ==> merged[k] == base[k]
      decreases todo
    {
      var key :| key in todo;
      var value := update[key];
      if key in merged && merged[key].Dict? && value.Dict? {
        assert Dict(value.entries) == update[key];
        var sub := MergeInto(merged[key].entries, value.entries);
        merged := merged[key := Dict(sub)];
      } else {
        merged := merged[key := value];
      }
      todo := todo - {key};
    }
    assert forall k :: k in merged ==> merged[k] == DeepMerge(base, update)[k] by {
      forall k | k in merged ensures merged[k] == DeepMerge(base, update)[k] {
        MergeEntries(base, update, k);
      }
    }
  }

  // ---------------------------------------------------------------------
  // The defaults and start-up
  // ---------------------------------------------------------------------

  const CameraDefaults: map<string, Value> := map[
    "index" := Int(0),
    "fps_target" := Int(30),
    "width" := Int(640),
    "height" := Int(480),
    "mirror" := Bool(true)]

  const MediapipeDefaults: map<string, Value> := map[
    "max_num_hands" := Int(1),
    "min_detection_confidence" := Real(0.7),
    "min_tracking_confidence" := Real(0.5),
    "static_image_mode" := Bool(false)]

  const GestureDefaults: map<string, Value> := map[
    "finger_threshold" := Real(0.15),
    "pinch_threshold" := Real(0.08),
    "stability_frames" := Int(3),
    "cooldown_click_ms" := Int(300),
    "cooldown_scroll_ms" := Int(50),
    "keyboard_hold_time" := Real(1.0)]

  const SmoothingDefaults: map<string, Value> := map[
    "type" := Str("one_euro"),
    "ema_alpha" := Real(0.3),
    "one_euro_freq" := Int(30),
    "one_euro_mincutoff" := Real(1.0),
    "one_euro_beta" := Real(0.007),
    "one_euro_dcutoff" := Real(1.0)]

  const CursorDefaults: map<string, Value> := map[
    "dead_zone" := Real(0.1),
    "acceleration_curve" := Bool(true),
    "sensitivity" := Real(1.0)]

  const DisplayDefaults: map<string, Value> := map[
    "show_preview" := Bool(true),
    "show_landmarks" := Bool(true),
    "show_fps" := Bool(true),
    "preview_scale" := Real(0.5)]

  /** The finger-count shortcut table; "cmd" becomes "ctrl" off macOS when keys are sent. */
  const ShortcutDefaults: map<string, Value> := map[
    "platform" := Str("auto"),
    "shortcuts" := Dict(map[
      "1_finger" := Str("escape"),
      "2_fingers" := Str("return"),
      "3_fingers" := Str("cmd+c"),
      "4_fingers" := Str("cmd+v"),
      "thumb_only" := Str("cmd+tab")])]

  /** `DEFAULT_CONFIG`. */
  const DefaultConfig: map<string, Value> := map[
    "camera" := Dict(CameraDefaults),
    "mediapipe" := Dict(MediapipeDefaults),
    "gestures" := Dict(GestureDefaults),
    "smoothing" := Dict(SmoothingDefaults),
    "cursor" := Dict(CursorDefaults),
    "display" := Dict(DisplayDefaults),
    "keyboard_shortcuts" := Dict(ShortcutDefaults)]

  /** Reading a two-piece path: the section, then the entry inside it. */
  lemma ReadTwo(m: map<string, Value>, a: string, b: string, default: Value)
    requires '.' !in a && '.' !in b
    ensures GetPath(Dict(m), Split(a + "." + b), default) ==
              if a in m && m[a].Dict? && b in m[a].entries then m[a].entries[b] else default
  {
    SplitJoin([a, b]);
    assert Join([a, b]) == a + "." + Join([b]);
    var keys := Split(a + "." + b);
    assert keys == [a, b];
    assert keys[1..] == [b];
    assert keys[1..][1..] == [];
    if a in m && m[a].Dict? {
      assert GetPath(Dict(m), keys, default) == GetPath(m[a], [b], default);
      if b in m[a].entries {
        assert GetPath(m[a], [b], default) == GetPath(m[a].entries[b], [], default);
      }
    }
  }

  /** The default camera is device 0. */
  lemma DefaultCameraIndex()
    ensures GetPath(Dict(DefaultConfig), Split("camera.index"), Null) == Int(0)
  {
    assert DefaultConfig["camera"] == Dict(CameraDefaults);
    assert CameraDefaults["index"] == Int(0);
    assert "camera" + "." + "index" == "camera.index";
    ReadTwo(DefaultConfig, "camera", "index", Null);
  }

  /** The default capture width is 640 pixels. */
  lemma DefaultCameraWidth()
    ensures GetPath(Dict(DefaultConfig), Split("camera.width"), Null) == Int(640)
  {
    assert DefaultConfig["camera"] == Dict(CameraDefaults);
    assert CameraDefaults["width"] == Int(640);
    assert "camera" + "." + "width" == "camera.width";
    ReadTwo(DefaultConfig, "camera", "width", Null);
  }

  /** The default smoother is the One-Euro filter. */
  lemma DefaultSmoothingLookup()
    ensures GetPath(Dict(DefaultConfig), Split("smoothing.type"), Null) == Str("one_euro")
  {
    assert DefaultConfig["smoothing"] == Dict(SmoothingDefaults);
    assert SmoothingDefaults["type"] == Str("one_euro");
    assert "smoothing" + "." + "type" == "smoothing.type";
    ReadTwo(DefaultConfig, "smoothing", "type", Null);
  }

  /** The default finger threshold is 0.15 of the hand size. */
  lemma DefaultThresholdLookup()
    ensures GetPath(Dict(DefaultConfig), Split("gestures.finger_threshold"), Null) == Real(0.15)
  {
    assert DefaultConfig["gestures"] == Dict(GestureDefaults);
    assert GestureDefaults["finger_threshold"] == Real(0.15);
    assert "gestures" + "." + "finger_threshold" == "gestures.finger_threshold";
    ReadTwo(DefaultConfig, "gestures", "finger_threshold", Null);
  }

  /** A missing section reads as the caller's default. */
  lemma DefaultMissingKey()
    ensures GetPath(Dict(DefaultConfig), Split("nonexistent.key"), Str("default")) == Str("default")
  {
    assert "nonexistent" !in DefaultConfig;
    assert "nonexistent" + "." + "key" == "nonexistent.key";
    ReadTwo(DefaultConfig, "nonexistent", "key", Str("default"));
  }

  /** The platform `__init__` chooses when the setting is "auto". */
  function PlatformName(isMacos: bool): string
  {
    if isMacos then "macos" else "linux"
  }

  /** The tree `__init__` merges: the user's file when it holds a dictionary, over the defaults. */
  function Loaded(user: Option<Value>): map<string, Value>
  {
    if user.Some? && user.value.Dict? then DeepMerge(DefaultConfig, user.value.entries) else DefaultConfig
  }

  /** `keyboard_shortcuts.platform` can be indexed in `m`. */
  predicate HasPlatform(m: map<string, Value>)
  {
    "keyboard_shortcuts" in m && m["keyboard_shortcuts"].Dict? && "platform" in m["keyboard_shortcuts"].entries
  }

  /**
   * `Config.__init__`: the defaults, with the user's file merged over them
   * when it holds a dictionary (any other content is reported and ignored),
   * then an "auto" platform replaced by the detected one. Indexing a missing
   * `keyboard_shortcuts` or `platform` raises `KeyError`; indexing a
   * non-dictionary raises `TypeError`.
   */
  function Initial(user: Option<Value>, isMacos: bool): (r: Result<map<string, Value>>)
    ensures r.Failure? <==> !HasPlatform(Loaded(user))
    ensures r.Success? ==> HasPlatform(r.value)
    ensures r.Success? ==> r.value["keyboard_shortcuts"].entries["platform"] != Str("auto")
    ensures r.Success? && HasPlatform(Loaded(user)) && Loaded(user)["keyboard_shortcuts"].entries["platform"] == Str("auto") ==>
              r.value["keyboard_shortcuts"].entries["platform"] == Str(PlatformName(isMacos))
    ensures r.Success? ==> r.value.Keys == Loaded(user).Keys
    ensures r.Success? ==> forall k :: k in r.value && k in Loaded(user) && k != "keyboard_shortcuts" ==>
                                  r.value[k] == Loaded(user)[k]
  {
    var merged := Loaded(user);
    if "keyboard_shortcuts" !in merged then Failure("KeyError")
    else
      var ks := merged["keyboard_shortcuts"];
      if !ks.Dict? then Failure("TypeError")
      else if "platform" !in ks.entries then Failure("KeyError")
      else if ks.entries["platform"] == Str("auto") then
        Success(merged["keyboard_shortcuts" := Dict(ks.entries["platform" := Str(PlatformName(isMacos))])])
      else Success(merged)
  }

  /** Without a user file the defaults stand, with the detected platform. */
  lemma DefaultInitial(isMacos: bool)
    ensures Initial(None, isMacos).Success?
    ensures Initial(None, isMacos).value["keyboard_shortcuts"].entries["platform"] == Str(PlatformName(isMacos))
    ensures Initial(None, isMacos).value["camera"] == Dict(CameraDefaults)
  {
  }

  // ---------------------------------------------------------------------
  // The configuration object
  // ---------------------------------------------------------------------

  class Config {
    var config: map<string, Value>

    constructor(initial: map<string, Value>)
      ensures config == initial
    {
      config := initial;
    }

    /** `get(key_path, default)`: walk down the tree one key at a time. */
    method Get(keyPath: string, default: Value) returns (r: Value)
      ensures r == GetPath(Dict(config), Split(keyPath), default)
    {
      var keys := Split(keyPath);
      var value := Dict(config);
      var i := 0;
      while i < |keys|
        invariant 0 <= i <= |keys|
        invariant GetPath(value, keys[i..], default) == GetPath(Dict(config), keys, default)
      {
        if value.Dict? && keys[i] in value.entries {
          value := value.entries[keys[i]];
        } else {
          return default;
        }
        i := i + 1;
      }
      return value;
    }

    /** `set(key_path, value)`; fails, changing nothing, on a non-dictionary intermediate. */
    method Set(keyPath: string, value: Value) returns (r: Result<()>)
      modifies this
      ensures var w := SetPath(old(config), Split(keyPath), value);
              if w.Success? then r.Success? && config == w.value
              else r == Failure(w.error) && config == old(config)
    {
      var w := SetPath(config, Split(keyPath), value);
      if w.Success? {
        config := w.value;
        r := Success(());
      } else {
        r := Failure(w.error);
      }
    }

    /** `_deep_merge(self.config, update)`. */
    method Merge(update: map<string, Value>)
      modifies this
      ensures config == DeepMerge(old(config), update)
    {
      config := MergeInto(config, update);
    }
  }
}
