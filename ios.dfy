/**
 * `IOSBuildController`: an iOS build copies the Pythonista app template into
 * the build directory, fills in its `Info.plist` (bundle names, short
 * version, app icons chosen by size, orientations, launch images), stages
 * the scripts and data, copies the icon files into the Xcode project and
 * saves it, installs the requirements and copies them in, renames the
 * project and opens it.
 */
module Ios {
  import opened Wrappers
  import opened Json
  import Text
  import Paths
  import opened Utils
  import opened Host
  import opened Base
  import opened Sets
  import Pewtools

  const IosName := "ios"
  const TemplateName := "PythonistaAppTemplate-master"
  const XcodeName := "PythonistaAppTemplate"
  const PlaceholderName := "My App"

  const Landscape: seq<string> := ["UIInterfaceOrientationLandscapeLeft", "UIInterfaceOrientationLandscapeRight"]
  const Portrait: seq<string> := ["UIInterfaceOrientationPortrait", "UIInterfaceOrientationPortraitUpsideDown"]

  /**
   * What the iOS build reads besides the filesystem: `plistlib.readPlist`
   * and `writePlist` on file text, `json.loads`, the pixel size that
   * `get_image_info` reports for an image path (`None` when it cannot), and
   * for `copy_deps_to_build` the site-packages directories the glob finds
   * and that directory's listings before and after the installs.
   */
  datatype IosWorld = IosWorld(
    readPlist: string -> Option<map<string, Value>>,
    writePlist: map<string, Value> -> string,
    loads: string -> Option<Value>,
    imageSize: string -> Option<(int, int)>,
    sites: seq<string>,
    sitesBefore: seq<string>,
    sitesAfter: seq<string>)

  // ---------------------------------------------------------------- version

  function Min(a: int, b: int): int { if a < b then a else b }

  function Max(a: int, b: int): int { if a < b then b else a }

  /** `".".join(version.split(".")[:3])`. */
  function VersionShort(version: string): string {
    var parts := Text.Split(version, '.');
    Text.Join(parts[..Min(3, |parts|)], ".")
  }

  /** The short version consists of the first three dot-separated components. */
  lemma VersionShortParts(version: string)
    ensures var parts := Text.Split(version, '.');
      Text.Split(VersionShort(version), '.') == parts[..Min(3, |parts|)]
  {
    var parts := Text.Split(version, '.');
    Text.SplitPartsClean(version, '.');
    Text.SplitJoin(parts[..Min(3, |parts|)], '.');
  }

  /**
   * The short version is the version itself when it has at most three
   * components, and otherwise the part before the third dot.
   */
  lemma VersionShortPrefix(version: string)
    ensures var parts := Text.Split(version, '.');
      version == VersionShort(version) + (if |parts| <= 3 then "" else "." + Text.Join(parts[3..], "."))
  {
    var parts := Text.Split(version, '.');
    Text.JoinSplit(version, '.');
    if |parts| <= 3 {
      assert parts[..Min(3, |parts|)] == parts;
    } else {
      assert parts == parts[..3] + parts[3..];
      Text.JoinAppend(parts[..3], parts[3..], ".");
    }
  }

  // ---------------------------------------------------------------- icon sizes

  /** The path without its extension (`os.path.splitext(p)[0]`). */
  function Stem(p: string): string {
    Paths.SplitExt(p).0
  }

  /** The size an icon name carries: `int()` of what follows the last '-' of its stem. */
  function IconSize(icon: string): Option<int> {
    var stem := Stem(icon);
    Text.ParseInt(stem[Text.RFind(stem, '-') + 1..])
  }

  /**
   * The size of the best icon so far as the comparison with a larger
   * candidate reads it: `int()` of the second '-'-separated piece of its
   * stem, an `IndexError` when there is no '-' and a `ValueError` when that
   * piece is not a number.
   */
  function BestSizeAsWritten(best: string): (r: Result<int>)
    ensures r.Ok? ==> |Text.Split(Stem(best), '-')| >= 2 && Text.ParseInt(Text.Split(Stem(best), '-')[1]) == Some(r.value)
    ensures r.Err? ==> r.error.ValueError? || r.error.Raised?
  {
    var pieces := Text.Split(Stem(best), '-');
    if |pieces| < 2 then Err(Raised("IndexError: list index out of range"))
    else match Text.ParseInt(pieces[1])
      case Some(n) => Ok(n)
      case None => Err(ValueError("invalid literal for int()"))
  }

  /** The size of a name is read from what follows its last '-'. */
  lemma TrailingSize(icon: string, pre: string, t: string)
    requires '-' !in t && Stem(icon) == pre + "-" + t
    ensures IconSize(icon) == Text.ParseInt(t)
  {
    Text.AfterLast(pre, t, '-');
  }

  /** For names spelled `name-N` with no other '-', both readings of the size agree. */
  lemma AsWrittenAgrees(icon: string, p: string, t: string)
    requires '-' !in p && '-' !in t
    requires Stem(icon) == p + "-" + t
    ensures IconSize(icon).Some? ==> BestSizeAsWritten(icon) == Ok(IconSize(icon).value)
    ensures IconSize(icon).None? ==> BestSizeAsWritten(icon).Err?
  {
    TrailingSize(icon, p, t);
    assert Text.Join([p, t], "-") == p + "-" + t;
    Text.SplitJoin([p, t], '-');
  }

  /**
   * A name with a second '-' (such as `app-icon-120.png`) has a size, yet
   * once it is the best icon so far the comparison raises, because it reads
   * the middle piece instead of the trailing number.
   */
  lemma AsWrittenRejects(icon: string, p: string, q: string, t: string)
    requires '-' !in p && '-' !in q && '-' !in t
    requires Text.ParseInt(q).None? && Text.ParseInt(t).Some?
    requires Stem(icon) == p + "-" + q + "-" + t
    ensures IconSize(icon) == Text.ParseInt(t)
    ensures BestSizeAsWritten(icon) == Err(ValueError("invalid literal for int()"))
  {
    TrailingSize(icon, p + "-" + q, t);
    Text.SplitThree(p, q, t, '-');
    assert Text.Split(Stem(icon), '-')[1] == q;
  }

  /** The size of an icon entry; a non-string entry has none. */
  function SizeOf(v: Value): Option<int> {
    if v.Str? then IconSize(v.s) else None
  }

  /** The icon's size, as `size` measures it, equals the slot's scaled width. */
  predicate Fits(v: Value, width: real, size: Value -> Option<int>) {
    size(v).Some? && (size(v).value as real) == width
  }

  /** The icon is larger than the slot's scaled width. */
  predicate Exceeds(v: Value, width: real, size: Value -> Option<int>) {
    size(v).Some? && (size(v).value as real) > width
  }

  /** Where the icon loop stops early: at an exact fit, or at an entry `splitext` refuses. */
  predicate Stops(v: Value, width: real, size: Value -> Option<int>) {
    !v.Str? || Fits(v, width, size)
  }

  /**
   * Among the first `n` icons, measured by `size`, `best` is none when no
   * icon is larger than `width`, and otherwise a larger icon no larger than
   * any other larger one.
   */
  predicate BestAmong(icons: seq<Value>, n: int, width: real, best: Option<string>, size: Value -> Option<int>)
    requires 0 <= n <= |icons|
  {
    && (best.None? <==> forall i :: 0 <= i < n ==> !Exceeds(icons[i], width, size))
    && (best.Some? ==>
          && Exceeds(Str(best.value), width, size)
          && forall i :: 0 <= i < n && Exceeds(icons[i], width, size) ==>
               size(Str(best.value)).value <= size(icons[i]).value)
  }

  /** `best` is one of `icons`, and the smallest of those larger than `width`. */
  predicate SmallestLarger(icons: seq<Value>, width: real, best: Option<string>, size: Value -> Option<int>) {
    BestAmong(icons, |icons|, width, best, size) && (best.Some? ==> Str(best.value) in icons)
  }

  /** One more icon: a larger icon replaces the best one unless the best one is smaller. */
  lemma BestStep(icons: seq<Value>, k: int, width: real, best: Option<string>, next: Option<string>, size: Value -> Option<int>)
    requires 0 <= k < |icons| && icons[k].Str? && BestAmong(icons, k, width, best, size)
    requires next == if Exceeds(icons[k], width, size)
                        && (best.None? || size(Str(best.value)).value >= size(icons[k]).value)
                     then Some(icons[k].s) else best
    ensures BestAmong(icons, k + 1, width, next, size)
  {
    assert Str(icons[k].s) == icons[k];
  }

  /**
   * The icon the best-fit loop settles on from position `k` on, `best`
   * being the choice among the icons before `k`: a non-string entry is a
   * `TypeError`, an exact fit wins at once, and a larger icon replaces
   * `best` unless `best` is smaller.
   */
  function ChoiceFrom(icons: seq<Value>, k: nat, width: real, size: Value -> Option<int>, best: Option<string>): Result<Option<string>>
    requires k <= |icons|
    decreases |icons| - k
  {
    if k == |icons| then Ok(best)
    else if !icons[k].Str? then Err(TypeError("expected str, bytes or os.PathLike object"))
    else if Fits(icons[k], width, size) then Ok(Some(icons[k].s))
    else
      var smaller := best.Some? && size(Str(best.value)).Some? && size(icons[k]).Some? && size(Str(best.value)).value < size(icons[k]).value;
      ChoiceFrom(icons, k + 1, width, size, if Exceeds(icons[k], width, size) && !smaller then Some(icons[k].s) else best)
  }

  /** The icon chosen for a slot `width` wide, if any. */
  function Choice(icons: seq<Value>, width: real, size: Value -> Option<int>): Result<Option<string>> {
    ChoiceFrom(icons, 0, width, size, None)
  }

  /**
   * The best-fit loop for one slot, with `size` reading an icon's size
   * from its name (`SizeOf` in the build): the first icon whose size
   * equals the scaled width wins at once; failing that, the smallest
   * larger icon is chosen; smaller icons and names without a size are
   * passed over. A non-string entry reached before an exact fit is a
   * `TypeError`.
   */
  method ChooseIcon(icons: seq<Value>, width: real, size: Value -> Option<int>) returns (r: Result<Option<string>>)
    ensures r == Choice(icons, width, size)
    ensures forall i :: 0 <= i < |icons| && Stops(icons[i], width, size) && (forall j :: 0 <= j < i ==> !Stops(icons[j], width, size)) ==>
      (icons[i].Str? ==> r == Ok(Some(icons[i].s))) && (!icons[i].Str? ==> r.Err? && r.error.TypeError?)
    ensures (forall i :: 0 <= i < |icons| ==> !Stops(icons[i], width, size)) ==> r.Ok? && SmallestLarger(icons, width, r.value, size)
    ensures r.Ok? && r.value.Some? ==> Str(r.value.value) in icons
  {
    var best: Option<string> := None;
    ghost var at := 0;
    var k := 0;
    while k < |icons|
      invariant 0 <= k <= |icons|
      invariant forall j :: 0 <= j < k ==> !Stops(icons[j], width, size)
      invariant BestAmong(icons, k, width, best, size)
      invariant best.Some? ==> 0 <= at < k && icons[at] == Str(best.value)
      invariant ChoiceFrom(icons, k, width, size, best) == Choice(icons, width, size)
    {
      var icon := icons[k];
      if !icon.Str? {
        return Err(TypeError("expected str, bytes or os.PathLike object"));
      }
      var got := size(icon);
      if got.Some? && (got.value as real) == width {
        return Ok(Some(icon.s));
      }
      var next := best;
      if got.Some? && (got.value as real) > width {
        if !(best.Some? && size(Str(best.value)).value < got.value) {
          next := Some(icon.s);
          at := k;
        }
      }
      BestStep(icons, k, width, best, next, size);
      best := next;
      k := k + 1;
    }
    r := Ok(best);
  }

  /** `int()` of a scale spelled `Sx`, its 'x' removed. */
  lemma ScaleSpelling(scale: nat)
    ensures Text.ParseInt(Text.Replace(Text.NatToString(scale) + "x", "x", "")) == Some(scale)
  {
    var ss := Text.NatToString(scale);
    forall i: nat | i < |ss| ensures !Text.MatchAt(ss + "x" + "", "x", i) {
      assert (ss + "x" + "")[i] == ss[i];
    }
    assert !Text.Contains("", "x");
    Text.ReplaceOne(ss, "", "x", "");
    assert ss + "x" + "" == ss + "x" && ss + "" + "" == ss;
    Text.IntRoundTrip(scale);
  }

  /** A size spelled `WxH` splits into its two numbers. */
  lemma SizeSpelling(w: nat, h: nat)
    ensures Text.Split(Text.NatToString(w) + "x" + Text.NatToString(h), 'x') == [Text.NatToString(w), Text.NatToString(h)]
  {
    var sw, sh := Text.NatToString(w), Text.NatToString(h);
    assert 'x' !in sw && 'x' !in sh;
    assert Text.Join([sw, sh], "x") == sw + "x" + sh;
    Text.SplitJoin([sw, sh], 'x');
  }

  /** A slot's `scale`: `int()` of its text with the 'x' removed, one when absent. */
  function SlotScale(slot: Value): Result<int> {
    var scaleV :- Member(slot, "scale");
    match scaleV
    case None => Ok(1)
    case Some(v) =>
      if !v.Str? then Err(Raised("AttributeError: object has no attribute 'replace'"))
      else match Text.ParseInt(Text.Replace(v.s, "x", ""))
        case Some(n) => Ok(n)
        case None => Err(ValueError("invalid literal for int()"))
  }

  /** `float()` of the width before the 'x' of a `size`, times `scale`. */
  function ScaledWidth(size: Value, scale: int): Result<real> {
    if !size.Str? then Err(Raised("AttributeError: object has no attribute 'split'"))
    else PartsWidth(Text.Split(size.s, 'x'), scale)
  }

  /** `width, height = parts`, then `float(width) * scale`. */
  function PartsWidth(parts: seq<string>, scale: int): Result<real> {
    if |parts| != 2 then Err(ValueError("not enough values to unpack"))
    else match Text.ParseFloat(parts[0])
      case Some(w) => Ok(w * (scale as real))
      case None => Err(ValueError("could not convert string to float"))
  }

  /**
   * The scaled width of one `Contents.json` image slot: its scale is read
   * first, then `None` without a `size`, otherwise the scaled width of
   * the `size`.
   */
  function SlotWidth(slot: Value): (r: Result<Option<real>>)
    ensures r.Ok? && r.value.Some? ==> slot.Obj? && "size" in slot.fields
  {
    var scale :- SlotScale(slot);
    var sizeV :- Member(slot, "size");
    match sizeV
    case None => Ok(None)
    case Some(v) =>
      var width :- ScaledWidth(v, scale);
      Ok(Some(width))
  }

  /** A `size` spelled `"WxH"` at scale `S` is `W * S` pixels wide. */
  lemma ScaledWidthOfSpelling(w: nat, h: nat, scale: int)
    ensures ScaledWidth(Str(Text.NatToString(w) + "x" + Text.NatToString(h)), scale) == Ok((w as real) * (scale as real))
  {
    SizeSpelling(w, h);
    Text.FloatOfNat(w);
    PartsWidthOf(Text.Split(Text.NatToString(w) + "x" + Text.NatToString(h), 'x'), scale, w as real);
  }

  /** Two parts whose first reads as `x` give `x` times the scale. */
  lemma PartsWidthOf(parts: seq<string>, scale: int, x: real)
    requires |parts| == 2 && Text.ParseFloat(parts[0]) == Some(x)
    ensures PartsWidth(parts, scale) == Ok(x * (scale as real))
  {
    var r := PartsWidth(parts, scale);
    assert r.Ok? && r.value == x * (scale as real);
    assert r == Ok(r.value);
  }

  /** A slot whose `size` is `"WxH"` and whose `scale` is `"Sx"` asks for `W * S` pixels. */
  lemma SlotWidthOfSpelling(slot: Value, w: nat, h: nat, scale: nat)
    requires slot.Obj? && "size" in slot.fields && "scale" in slot.fields
    requires slot.fields["size"] == Str(Text.NatToString(w) + "x" + Text.NatToString(h))
    requires slot.fields["scale"] == Str(Text.NatToString(scale) + "x")
    ensures SlotWidth(slot) == Ok(Some((w as real) * (scale as real)))
  {
    ScaleSpelling(scale);
    assert SlotScale(slot) == Ok(scale);
    ScaledWidthOfSpelling(w, h, scale);
    SlotWidthFrom(slot, scale, (w as real) * (scale as real));
  }

  /** A slot without a `scale` is at scale one. */
  lemma SlotWidthUnscaled(slot: Value, w: nat, h: nat)
    requires slot.Obj? && "size" in slot.fields && "scale" !in slot.fields
    requires slot.fields["size"] == Str(Text.NatToString(w) + "x" + Text.NatToString(h))
    ensures SlotWidth(slot) == Ok(Some(w as real))
  {
    assert SlotScale(slot) == Ok(1);
    ScaledWidthOfSpelling(w, h, 1);
    assert (w as real) * (1 as real) == w as real;
    SlotWidthFrom(slot, 1, w as real);
  }

  /** A slot with a scale and a `size` asks for the scaled width of that `size`. */
  lemma SlotWidthFrom(slot: Value, scale: int, width: real)
    requires SlotScale(slot) == Ok(scale) && slot.Obj? && "size" in slot.fields
    requires ScaledWidth(slot.fields["size"], scale) == Ok(width)
    ensures SlotWidth(slot) == Ok(Some(width))
  {
    var r := SlotWidth(slot);
    assert r.Ok? && r.value == Some(width);
    assert r == Ok(r.value);
  }

  /** A slot without a `size` asks for no icon, whatever its scale. */
  lemma SlotWithoutSize(slot: Value)
    requires slot.Obj? && "size" !in slot.fields && SlotScale(slot).Ok?
    ensures SlotWidth(slot) == Ok(None)
  {
  }

  // ---------------------------------------------------------------- icon slots

  /** The destination of a slot's icon, when the slot names a file. */
  function SlotDest(slot: Value, appiconDir: string): Option<string> {
    if slot.Obj? && "filename" in slot.fields && slot.fields["filename"].Str?
    then Some(Paths.Join(appiconDir, slot.fields["filename"].s)) else None
  }

  /** `f` is the named destination of one of the first `n` slots. */
  predicate SlotTarget(slots: seq<Value>, n: int, appiconDir: string, f: string)
    requires 0 <= n <= |slots|
  {
    exists i :: 0 <= i < n && SlotDest(slots[i], appiconDir) == Some(f)
  }

  /** Where chosen icons are read from: `cwd/icons/ios/<icon>`. */
  function IconSource(cwd: string, icon: string): string {
    Paths.JoinAll([cwd, "icons", "ios", icon])
  }

  /** The icon the selection rule picks for a slot: none for a slot without a size. */
  function SlotIcon(slot: Value, icons: seq<Value>): Result<Option<string>> {
    var width :- SlotWidth(slot);
    if width.None? then Ok(None) else Choice(icons, width.value, SizeOf)
  }

  /** How the loop picks a slot's icon; the build uses `Picker`, and the loop's lemmas hold for any rule. */
  type Pick = Value -> Result<Option<string>>

  /** The selection rule over the given icons. */
  function Picker(icons: seq<Value>): Pick {
    slot => SlotIcon(slot, icons)
  }

  /**
   * One slot on the files `files`: the icon copied, if any, and the files
   * afterwards. The slot's picked icon is copied to its `filename`; a slot
   * without a size, a pick or a filename leaves the files as they are (the
   * selection rule picks nothing for a slot that is not a mapping); a
   * filename that is not a string, a copy onto itself or a missing source
   * raises.
   */
  function SlotOutcome(slot: Value, pick: Pick, appiconDir: string, cwd: string, files: map<string, string>)
    : (r: Result<(Option<string>, map<string, string>)>)
    ensures r.Ok? && r.value.0.None? ==> r.value.1 == files
    ensures r.Ok? && r.value.0.Some? ==>
      && pick(slot) == Ok(r.value.0)
      && SlotDest(slot, appiconDir).Some? && IconSource(cwd, r.value.0.value) in files
      && r.value.1 == files[SlotDest(slot, appiconDir).value := files[IconSource(cwd, r.value.0.value)]]
    ensures pick(slot).Err? ==> r == Err(pick(slot).error)
    ensures pick(slot).Ok? && pick(slot).value.Some? && SlotDest(slot, appiconDir).Some? ==>
      (r.Ok? <==> IconSource(cwd, pick(slot).value.value) in files - {SlotDest(slot, appiconDir).value})
    ensures r.Ok? && pick(slot).Ok? && pick(slot).value.Some? && SlotDest(slot, appiconDir).Some? ==>
      r.value.0 == pick(slot).value
  {
    var icon :- pick(slot);
    if icon.None? || !slot.Obj? || "filename" !in slot.fields then Ok((None, files))
    else
      var named := slot.fields["filename"];
      var src := IconSource(cwd, icon.value);
      if !named.Str? then Err(TypeError("expected str, bytes or os.PathLike object"))
      else if src == Paths.Join(appiconDir, named.s) then Err(Raised("SameFileError"))
      else if src !in files then Err(Raised("FileNotFoundError"))
      else Ok((icon, files[Paths.Join(appiconDir, named.s) := files[src]]))
  }

  /**
   * One slot of the icon loop: for a slot with a size, the chosen icon is
   * copied to the slot's `filename`; a slot without a size, without a
   * chosen icon or without a filename copies nothing. Returns the icon
   * copied, if any.
   */
  method CopySlotIcon(slot: Value, icons: seq<Value>, appiconDir: string, cwd: string, host: Machine) returns (r: Result<Option<string>>)
    modifies host
    ensures host.dirs == old(host.dirs) && old(host.trace) <= host.trace
    ensures Commands(host.trace) == Commands(old(host.trace)) && Removals(host.trace) == Removals(old(host.trace))
    ensures var o := SlotOutcome(slot, Picker(icons), appiconDir, cwd, old(host.files));
      && (r.Ok? <==> o.Ok?)
      && (r.Ok? ==> r.value == o.value.0 && host.files == o.value.1)
      && (r.Err? ==> r.error == o.error && host.files == old(host.files))
  {
    var width := SlotWidth(slot);
    if width.Err? {
      return Err(width.error);
    }
    if width.value.None? {
      return Ok(None);
    }
    var best := ChooseIcon(icons, width.value.value, SizeOf);
    if best.Err? {
      return Err(best.error);
    }
    if best.value.None? {
      return Ok(None);
    }
    var icon := best.value.value;
    var src := IconSource(cwd, icon);
    if "filename" !in slot.fields {
      return Ok(None);
    }
    var named := slot.fields["filename"];
    if !named.Str? {
      return Err(TypeError("expected str, bytes or os.PathLike object"));
    }
    var dest := Paths.Join(appiconDir, named.s);
    if src == dest {
      return Err(Raised("SameFileError"));
    }
    if src !in host.files {
      return Err(Raised("FileNotFoundError"));
    }
    host.CopyFile(src, dest);
    r := Ok(Some(icon));
  }

  /**
   * The slots in order on the files `files`: how many icons were copied
   * (or the first slot's error) and the files afterwards. A failing slot
   * ends the loop with the files as the slots before it left them.
   */
  function SlotsOutcome(slots: seq<Value>, pick: Pick, appiconDir: string, cwd: string, files: map<string, string>)
    : (r: (Result<nat>, map<string, string>))
    ensures r.0.Ok? ==> r.0.value <= |slots|
    decreases |slots|
  {
    if slots == [] then (Ok(0), files)
    else NextSlot(SlotsOutcome(slots[..|slots| - 1], pick, appiconDir, cwd, files), slots[|slots| - 1], pick, appiconDir, cwd)
  }

  /** The loop's count and files after one more slot. */
  function NextSlot(prior: (Result<nat>, map<string, string>), slot: Value, pick: Pick, appiconDir: string, cwd: string)
    : (r: (Result<nat>, map<string, string>))
    ensures prior.0.Ok? && r.0.Ok? ==> prior.0.value <= r.0.value <= prior.0.value + 1
  {
    if prior.0.Err? then prior
    else match SlotOutcome(slot, pick, appiconDir, cwd, prior.1)
      case Err(e) => (Err(e), prior.1)
      case Ok(one) => (Ok(prior.0.value + if one.0.Some? then 1 else 0), one.1)
  }

  /** A slot that succeeds after slots that succeeded adds its copy, if any, to the count. */
  lemma NextSlotOk(prior: (Result<nat>, map<string, string>), slot: Value, pick: Pick, appiconDir: string, cwd: string)
    requires prior.0.Ok? && SlotOutcome(slot, pick, appiconDir, cwd, prior.1).Ok?
    ensures var o := SlotOutcome(slot, pick, appiconDir, cwd, prior.1).value;
      NextSlot(prior, slot, pick, appiconDir, cwd) == (Ok(prior.0.value + if o.0.Some? then 1 else 0), o.1)
  {
  }

  /** The loop over one more slot. */
  lemma SlotsStep(slots: seq<Value>, k: nat, pick: Pick, appiconDir: string, cwd: string, files: map<string, string>)
    requires k < |slots|
    ensures SlotsOutcome(slots[..k + 1], pick, appiconDir, cwd, files) ==
      NextSlot(SlotsOutcome(slots[..k], pick, appiconDir, cwd, files), slots[k], pick, appiconDir, cwd)
  {
    assert slots[..k + 1][..k] == slots[..k] && slots[..k + 1][k] == slots[k];
  }

  /** A slot writes at most its own destination. */
  lemma OutcomeFrame(slot: Value, pick: Pick, appiconDir: string, cwd: string, files: map<string, string>)
    requires SlotOutcome(slot, pick, appiconDir, cwd, files).Ok?
    ensures var after := SlotOutcome(slot, pick, appiconDir, cwd, files).value.1;
      && (forall f :: f in after ==> f in files || SlotDest(slot, appiconDir) == Some(f))
      && (forall f :: f in files && SlotDest(slot, appiconDir) != Some(f) ==> f in after && after[f] == files[f])
  {
  }

  /** The files `files` differ from `files0` only where the first `k` slots may write. */
  predicate SlotsFrame(slots: seq<Value>, k: nat, appiconDir: string, files0: map<string, string>, files: map<string, string>)
    requires k <= |slots|
  {
    && (forall f :: f in files ==> f in files0 || SlotTarget(slots, k, appiconDir, f))
    && (forall f :: f in files0 && !SlotTarget(slots, k, appiconDir, f) ==> f in files && files[f] == files0[f])
  }

  /** The files the first `k + 1` slots may write, from those the first `k` may write and the next slot's. */
  lemma TargetsStep(slots: seq<Value>, k: nat, appiconDir: string, files0: map<string, string>, before: map<string, string>, after: map<string, string>)
    requires k < |slots| && SlotsFrame(slots, k, appiconDir, files0, before)
    requires forall f :: f in after ==> f in before || SlotDest(slots[k], appiconDir) == Some(f)
    requires forall f :: f in before && SlotDest(slots[k], appiconDir) != Some(f) ==> f in after && after[f] == before[f]
    ensures SlotsFrame(slots, k + 1, appiconDir, files0, after)
  {
    forall f | SlotTarget(slots, k, appiconDir, f) ensures SlotTarget(slots, k + 1, appiconDir, f) {
      var i :| 0 <= i < k && SlotDest(slots[i], appiconDir) == Some(f);
    }
    forall f | SlotDest(slots[k], appiconDir) == Some(f) ensures SlotTarget(slots, k + 1, appiconDir, f) {
      assert 0 <= k < k + 1;
    }
  }

  /** Once a slot fails, the later slots change nothing. */
  lemma {:induction false} FailureSticks(slots: seq<Value>, n: nat, pick: Pick, appiconDir: string, cwd: string, files: map<string, string>)
    requires n <= |slots| && SlotsOutcome(slots[..n], pick, appiconDir, cwd, files).0.Err?
    ensures SlotsOutcome(slots, pick, appiconDir, cwd, files) == SlotsOutcome(slots[..n], pick, appiconDir, cwd, files)
    decreases |slots|
  {
    if n < |slots| {
      var init := slots[..|slots| - 1];
      assert init[..n] == slots[..n];
      FailureSticks(init, n, pick, appiconDir, cwd, files);
    } else {
      assert slots[..n] == slots;
    }
  }

  /**
   * A slot that names a file no later slot names ends up holding the icon
   * the selection rule picks for it, when the loop succeeds and no earlier
   * slot wrote over that icon's source.
   */
  lemma {:induction false} SlotLanded(slots: seq<Value>, pick: Pick, appiconDir: string, cwd: string, files: map<string, string>,
                                      i: nat, icon: string, dest: string)
    requires SlotsOutcome(slots, pick, appiconDir, cwd, files).0.Ok?
    requires i < |slots| && pick(slots[i]) == Ok(Some(icon)) && SlotDest(slots[i], appiconDir) == Some(dest)
    requires forall j :: i < j < |slots| ==> SlotDest(slots[j], appiconDir) != Some(dest)
    requires forall j :: 0 <= j < i ==> SlotDest(slots[j], appiconDir) != Some(IconSource(cwd, icon))
    ensures IconSource(cwd, icon) in files
    ensures var out := SlotsOutcome(slots, pick, appiconDir, cwd, files).1;
      dest in out && out[dest] == files[IconSource(cwd, icon)]
    decreases |slots|
  {
    var init, last := slots[..|slots| - 1], slots[|slots| - 1];
    var prior := SlotsOutcome(init, pick, appiconDir, cwd, files);
    assert SlotsOutcome(slots, pick, appiconDir, cwd, files) == NextSlot(prior, last, pick, appiconDir, cwd);
    assert prior.0.Ok?;
    var o := SlotOutcome(last, pick, appiconDir, cwd, prior.1);
    assert o.Ok? && SlotsOutcome(slots, pick, appiconDir, cwd, files).1 == o.value.1;
    var src := IconSource(cwd, icon);
    if i == |slots| - 1 {
      assert o.value.0 == Some(icon);
      SlotsKeep(init, pick, appiconDir, cwd, files, src);
    } else {
      assert forall j :: i < j < |init| ==> init[j] == slots[j];
      SlotLanded(init, pick, appiconDir, cwd, files, i, icon, dest);
      OutcomeFrame(last, pick, appiconDir, cwd, prior.1);
    }
  }

  /** A file no slot names keeps its text through the loop. */
  lemma {:induction false} SlotsKeep(slots: seq<Value>, pick: Pick, appiconDir: string, cwd: string, files: map<string, string>, f: string)
    requires forall j :: 0 <= j < |slots| ==> SlotDest(slots[j], appiconDir) != Some(f)
    ensures var out := SlotsOutcome(slots, pick, appiconDir, cwd, files).1;
      (f in out <==> f in files) && (f in files ==> out[f] == files[f])
    decreases |slots|
  {
    if slots != [] {
      SlotsKeep(slots[..|slots| - 1], pick, appiconDir, cwd, files, f);
    }
  }

  /**
   * The loop over the slots of `Contents.json`: only the slots' named
   * destinations are written, every other file keeps its text, and nothing
   * is run or removed. Returns how many icons were copied.
   */
  method CopyAppIcons(slots: seq<Value>, icons: seq<Value>, appiconDir: string, cwd: string, host: Machine) returns (r: Result<nat>)
    modifies host
    ensures host.dirs == old(host.dirs) && old(host.trace) <= host.trace
    ensures Commands(host.trace) == Commands(old(host.trace)) && Removals(host.trace) == Removals(old(host.trace))
    ensures (r, host.files) == SlotsOutcome(slots, Picker(icons), appiconDir, cwd, old(host.files))
    ensures forall f :: f in host.files ==> f in old(host.files) || SlotTarget(slots, |slots|, appiconDir, f)
    ensures forall f :: f in old(host.files) && !SlotTarget(slots, |slots|, appiconDir, f) ==> f in host.files && host.files[f] == old(host.files)[f]
  {
    var copied: nat := 0;
    var k := 0;
    while k < |slots|
      invariant 0 <= k <= |slots|
      invariant host.dirs == old(host.dirs) && old(host.trace) <= host.trace
      invariant Commands(host.trace) == Commands(old(host.trace)) && Removals(host.trace) == Removals(old(host.trace))
      invariant SlotsSoFar(slots, k, Picker(icons), appiconDir, cwd, old(host.files), copied, host.files)
    {
      ghost var before := host.files;
      ghost var t := host.trace;
      var one := CopySlotIcon(slots[k], icons, appiconDir, cwd, host);
      PrefixTrans(old(host.trace), t, host.trace);
      SlotsAdvance(slots, k, Picker(icons), appiconDir, cwd, old(host.files), copied, before, one, host.files);
      if one.Err? {
        return Err(one.error);
      }
      if one.value.Some? {
        copied := copied + 1;
      }
      k := k + 1;
    }
    assert slots[..k] == slots;
    r := Ok(copied);
  }

  /** The state of the slot loop after `k` slots: the outcome so far, and the files it may have written. */
  predicate SlotsSoFar(slots: seq<Value>, k: nat, pick: Pick, appiconDir: string, cwd: string,
                       files0: map<string, string>, copied: nat, files: map<string, string>)
    requires k <= |slots|
  {
    && SlotsOutcome(slots[..k], pick, appiconDir, cwd, files0) == (Ok(copied), files)
    && SlotsFrame(slots, k, appiconDir, files0, files)
  }

  /** The first `k + 1` slots, from the first `k` and a slot that succeeds. */
  lemma SlotsExtend(slots: seq<Value>, k: nat, pick: Pick, appiconDir: string, cwd: string, files0: map<string, string>,
                    copied: nat, before: map<string, string>)
    requires k < |slots| && SlotsOutcome(slots[..k], pick, appiconDir, cwd, files0) == (Ok(copied), before)
    requires SlotOutcome(slots[k], pick, appiconDir, cwd, before).Ok?
    ensures var o := SlotOutcome(slots[k], pick, appiconDir, cwd, before).value;
      SlotsOutcome(slots[..k + 1], pick, appiconDir, cwd, files0) == (Ok(copied + if o.0.Some? then 1 else 0), o.1)
  {
    SlotsStep(slots, k, pick, appiconDir, cwd, files0);
    NextSlotOk((Ok(copied), before), slots[k], pick, appiconDir, cwd);
  }

  /** One turn of the slot loop: a failing slot ends the loop with its error, any other extends the state by one slot. */
  lemma SlotsAdvance(slots: seq<Value>, k: nat, pick: Pick, appiconDir: string, cwd: string, files0: map<string, string>,
                     copied: nat, before: map<string, string>, one: Result<Option<string>>, after: map<string, string>)
    requires k < |slots| && SlotsSoFar(slots, k, pick, appiconDir, cwd, files0, copied, before)
    requires var o := SlotOutcome(slots[k], pick, appiconDir, cwd, before);
      && (one.Ok? <==> o.Ok?)
      && (one.Ok? ==> one.value == o.value.0 && after == o.value.1)
      && (one.Err? ==> one.error == o.error && after == before)
    ensures one.Err? ==> SlotsOutcome(slots, pick, appiconDir, cwd, files0) == (Err(one.error), before)
    ensures one.Ok? ==> SlotsSoFar(slots, k + 1, pick, appiconDir, cwd, files0, copied + (if one.value.Some? then 1 else 0), after)
  {
    if one.Err? {
      SlotsStep(slots, k, pick, appiconDir, cwd, files0);
      FailureSticks(slots, k + 1, pick, appiconDir, cwd, files0);
    } else {
      assert SlotOutcome(slots[k], pick, appiconDir, cwd, before) == Ok((one.value, after));
      SlotsExtend(slots, k, pick, appiconDir, cwd, files0, copied, before);
      OutcomeFrame(slots[k], pick, appiconDir, cwd, before);
      TargetsStep(slots, k, appiconDir, files0, before, after);
    }
  }

  /**
   * The slots and the icons of the icon step: `Contents.json` of the
   * app-icon set is read and decoded, its `images` iterated, and so is the
   * icon setting.
   */
  function IconSet(appiconDir: string, icons: Value, loads: string -> Option<Value>, files: map<string, string>)
    : (r: Result<(seq<Value>, seq<Value>)>)
    ensures Paths.Join(appiconDir, "Contents.json") !in files ==> r.Err?
    ensures r.Ok? ==> Iter(icons) == Ok(r.value.1)
  {
    var contentsFile := Paths.Join(appiconDir, "Contents.json");
    if contentsFile !in files then Err(Raised("FileNotFoundError"))
    else match loads(files[contentsFile])
      case None => Err(ValueError("JSONDecodeError"))
      case Some(contents) =>
        var images :- Subscript(contents, Str("images"));
        var slots :- Iter(images);
        var candidates :- Iter(icons);
        Ok((slots, candidates))
  }

  /**
   * The icon part of the plist step: `Contents.json` of the app-icon set
   * is read and decoded, and each of its `images` slots gets its icon.
   */
  method IconSlots(xcodeDir: string, icons: Value, cwd: string, iw: IosWorld, host: Machine) returns (r: Result<nat>)
    modifies host
    ensures host.dirs == old(host.dirs) && old(host.trace) <= host.trace
    ensures Commands(host.trace) == Commands(old(host.trace)) && Removals(host.trace) == Removals(old(host.trace))
    ensures var found := IconSet(AppIconDir(xcodeDir), icons, iw.loads, old(host.files));
      && (found.Err? ==> r == Err(found.error) && host.files == old(host.files))
      && (found.Ok? ==> (r, host.files) == SlotsOutcome(found.value.0, Picker(found.value.1), AppIconDir(xcodeDir), cwd, old(host.files)))
    ensures forall f :: f in host.files ==> f in old(host.files) || Text.StartsWith(f, AppIconDir(xcodeDir)) || Text.StartsWith(f, "/")
  {
    var appiconDir := AppIconDir(xcodeDir);
    var found := IconSet(appiconDir, icons, iw.loads, host.files);
    if found.Err? {
      return Err(found.error);
    }
    var slots, candidates := found.value.0, found.value.1;
    ghost var before := host.files;
    r := CopyAppIcons(slots, candidates, appiconDir, cwd, host);
    forall f | f in host.files && f !in before
      ensures Text.StartsWith(f, appiconDir) || Text.StartsWith(f, "/")
    {
      var i :| 0 <= i < |slots| && SlotDest(slots[i], appiconDir) == Some(f);
      JoinLandsBelow(appiconDir, slots[i].fields["filename"].s);
    }
  }

  function AppIconDir(xcodeDir: string): string {
    Paths.JoinAll([xcodeDir, "Assets.xcassets", "AppIcon.appiconset"])
  }

  /** `os.path.join(dir, name)` lies below `dir`, unless `name` is absolute. */
  lemma JoinLandsBelow(dir: string, name: string)
    ensures Text.StartsWith(Paths.Join(dir, name), dir) || Text.StartsWith(Paths.Join(dir, name), "/")
  {
    var j := Paths.Join(dir, name);
    if !Text.StartsWith(name, "/") {
      if dir == "" || Text.EndsWith(dir, "/") {
        assert j == dir + name && j[..|dir|] == dir;
      } else {
        assert j == dir + "/" + name && j[..|dir|] == dir;
      }
    }
  }

  // ---------------------------------------------------------------- orientation

  /** The orientations a descriptor value stands for: `all` and `sensor` mean both. */
  function OrientationsOf(v: Value): seq<Value> {
    if v == Str("all") || v == Str("sensor") then [Str("landscape"), Str("portrait")] else [v]
  }

  /** Anything other than `all` or `sensor` makes the app require full screen. */
  predicate RequiresFullScreen(v: Value) {
    v != Str("all") && v != Str("sensor")
  }

  /** The UIKit constants of one orientation; other names contribute none. */
  function Constants(o: Value): seq<string> {
    if o == Str("landscape") then Landscape
    else if o == Str("portrait") then Portrait
    else []
  }

  /** The constants of several orientations, in order. */
  function AllConstants(os: seq<Value>): seq<string> {
    if os == [] then [] else AllConstants(os[..|os| - 1]) + Constants(os[|os| - 1])
  }

  /** The loop that extends `ios_orientations` orientation by orientation. */
  method ExpandOrientations(os: seq<Value>) returns (r: seq<string>)
    ensures r == AllConstants(os)
  {
    r := [];
    var k := 0;
    while k < |os|
      invariant 0 <= k <= |os|
      invariant r == AllConstants(os[..k])
    {
      assert os[..k + 1][..k] == os[..k];
      if os[k] == Str("landscape") {
        r := r + Landscape;
      }
      if os[k] == Str("portrait") {
        r := r + Portrait;
      }
      k := k + 1;
    }
    assert os[..k] == os;
  }

  /** `all` and `sensor` give the two landscape and the two portrait constants. */
  lemma AnyOrientationGivesFour(v: Value)
    requires v == Str("all") || v == Str("sensor")
    ensures AllConstants(OrientationsOf(v)) == Landscape + Portrait
    ensures !RequiresFullScreen(v)
  {
    var os := OrientationsOf(v);
    assert os[..1] == [Str("landscape")] && os[..1][..0] == [];
    assert AllConstants(os[..1]) == Landscape;
    assert AllConstants(os) == AllConstants(os[..1]) + Constants(Str("portrait"));
  }

  /**
   * Any other value stands for itself: `landscape` and `portrait` give their
   * two constants, everything else (the default `both` among them) none.
   */
  lemma OtherOrientationGivesOwn(v: Value)
    requires v != Str("all") && v != Str("sensor")
    ensures AllConstants(OrientationsOf(v)) == Constants(v)
    ensures v != Str("landscape") && v != Str("portrait") ==> AllConstants(OrientationsOf(v)) == []
    ensures RequiresFullScreen(v)
  {
    assert OrientationsOf(v)[..0] == [];
  }

  // ---------------------------------------------------------------- launch images

  /** `'{%d, %d}' % (a, b)`. */
  function SizeText(a: int, b: int): string {
    "{" + Text.IntToString(a) + ", " + Text.IntToString(b) + "}"
  }

  /**
   * The plist entry of one launch image: wider than tall is `Landscape`, and
   * the size is always written as if the image were portrait (shorter side
   * first).
   */
  function LaunchImage(path: string, width: int, height: int): map<string, Value>
  {
    map[
      "UILaunchImageMinimumOSVersion" := Str("7.0"),
      "UILaunchImageOrientation" := Str(if width > height then "Landscape" else "Portrait"),
      "UILaunchImageName" := Str(Stem(Paths.Basename(path))),
      "UILaunchImageSize" := Str(if width > height then SizeText(height, width) else SizeText(width, height))]
  }

  /**
   * A launch entry has exactly the four keys iOS reads: the orientation
   * follows the longer side, the size text puts the shorter side first and
   * the name is the file's stem.
   */
  lemma LaunchImageFields(path: string, width: int, height: int)
    ensures LaunchImage(path, width, height).Keys
      == {"UILaunchImageMinimumOSVersion", "UILaunchImageOrientation", "UILaunchImageName", "UILaunchImageSize"}
    ensures LaunchImage(path, width, height)["UILaunchImageMinimumOSVersion"] == Str("7.0")
    ensures LaunchImage(path, width, height)["UILaunchImageOrientation"] == Str(if width > height then "Landscape" else "Portrait")
    ensures LaunchImage(path, width, height)["UILaunchImageSize"] == Str(SizeText(Min(width, height), Max(width, height)))
    ensures LaunchImage(path, width, height)["UILaunchImageName"] == Str(Stem(Paths.Basename(path)))
  {
  }

  /**
   * A landscape image and its portrait twin get the same size text and
   * opposite orientations.
   */
  lemma LaunchSizeSymmetric(path: string, w: int, h: int)
    requires w != h
    ensures LaunchImage(path, w, h)["UILaunchImageSize"] == LaunchImage(path, h, w)["UILaunchImageSize"]
    ensures LaunchImage(path, w, h)["UILaunchImageOrientation"] != LaunchImage(path, h, w)["UILaunchImageOrientation"]
  {
    LaunchImageFields(path, w, h);
    LaunchImageFields(path, h, w);
    assert Min(w, h) == Min(h, w) && Max(w, h) == Max(h, w);
  }

  /** `os.path.abspath(os.path.join("icons", "ios", image))`. */
  function LaunchPath(cwd: string, image: string): string {
    Paths.Abspath(cwd, Paths.Join3("icons", "ios", image))
  }

  /** Where the launch loop looks for each image, relative to the working directory `cwd`. */
  function Locator(cwd: string): string -> string {
    image => LaunchPath(cwd, image)
  }

  /** An image entry the launch loop can use: a string whose size is known. */
  predicate Readable(image: Value, locate: string -> string, imageSize: string -> Option<(int, int)>) {
    image.Str? && imageSize(locate(image.s)).Some?
  }

  /** The launch entry of a readable image. */
  function LaunchEntry(image: Value, locate: string -> string, imageSize: string -> Option<(int, int)>): Value
    requires Readable(image, locate, imageSize)
  {
    var path := locate(image.s);
    var size := imageSize(path).value;
    Obj(LaunchImage(path, size.0, size.1))
  }

  /** `entries` holds the launch entry of every image, in order. */
  predicate LaunchList(images: seq<Value>, locate: string -> string, imageSize: string -> Option<(int, int)>, entries: seq<Value>) {
    && |entries| == |images|
    && forall i :: 0 <= i < |images| ==> EntryOf(images[i], locate, imageSize, entries[i])
  }

  /** `entry` is the launch entry of the readable image `image`. */
  predicate EntryOf(image: Value, locate: string -> string, imageSize: string -> Option<(int, int)>, entry: Value) {
    Readable(image, locate, imageSize) && entry == LaunchEntry(image, locate, imageSize)
  }

  /**
   * The launch-image loop: one entry per image, in order; a non-string image
   * or one whose size cannot be read fails the build.
   */
  method LaunchEntries(images: seq<Value>, locate: string -> string, imageSize: string -> Option<(int, int)>) returns (r: Result<seq<Value>>)
    ensures r.Ok? <==> forall i :: 0 <= i < |images| ==> Readable(images[i], locate, imageSize)
    ensures r.Ok? ==> LaunchList(images, locate, imageSize, r.value)
  {
    var entries: seq<Value> := [];
    var k := 0;
    while k < |images|
      invariant 0 <= k <= |images|
      invariant LaunchList(images[..k], locate, imageSize, entries)
    {
      if !images[k].Str? || imageSize(locate(images[k].s)).None? {
        assert !Readable(images[k], locate, imageSize);
        return Err(if !images[k].Str? then TypeError("expected str, bytes or os.PathLike object")
                   else TypeError("cannot unpack non-iterable NoneType object"));
      }
      var e := LaunchEntry(images[k], locate, imageSize);
      assert EntryOf(images[k], locate, imageSize, e);
      LaunchListSnoc(images, k, locate, imageSize, entries, e);
      entries := entries + [e];
      k := k + 1;
    }
    assert images[..k] == images;
    r := Ok(entries);
  }

  /** One more readable image extends the entry list by its entry. */
  lemma LaunchListSnoc(images: seq<Value>, k: nat, locate: string -> string, imageSize: string -> Option<(int, int)>, entries: seq<Value>, e: Value)
    requires k < |images| && EntryOf(images[k], locate, imageSize, e)
    requires LaunchList(images[..k], locate, imageSize, entries)
    ensures LaunchList(images[..k + 1], locate, imageSize, entries + [e])
  {
    var longer := entries + [e];
    var prefix, before := images[..k + 1], images[..k];
    forall i | 0 <= i < k + 1
      ensures EntryOf(prefix[i], locate, imageSize, longer[i])
    {
      if i < k {
        assert prefix[i] == before[i] && longer[i] == entries[i];
        assert EntryOf(before[i], locate, imageSize, entries[i]);
      } else {
        assert prefix[i] == images[k] && longer[i] == e;
      }
    }
  }

  // ---------------------------------------------------------------- Info.plist

  /** Python's `len(v) > 0`; `len` of a scalar is a `TypeError`. */
  function NonEmpty(v: Value): (r: Result<bool>)
    ensures r.Ok? <==> v.Str? || v.Arr? || v.Obj?
    ensures r.Ok? ==> (r.value <==> Truthy(v))
  {
    match v
    case Str(s) => Ok(|s| > 0)
    case Arr(items) => Ok(|items| > 0)
    case Obj(fields) => Ok(|fields| > 0)
    case _ => Err(TypeError("object has no len()"))
  }

  const BundleKeys: set<string> := {
    "CFBundleIdentifier", "CFBundleName", "CFBundleDisplayName", "CFBundleVersion", "CFBundleIconName",
    "CFBundleShortVersionString", "UIStatusBarHidden"}

  const PermissionKeys: set<string> := {
    "NSCalendarsUsageDescription", "NSPhotoLibraryUsageDescription", "NSBluetoothPeripheralUsageDescription"}

  const HeadKeys: set<string> := BundleKeys + PermissionKeys

  const TailKeys: set<string> := {
    "UIRequiresFullScreen", "UILaunchStoryboardName", "UILaunchImages",
    "UISupportedInterfaceOrientations", "UISupportedInterfaceOrientations~ipad"}

  /** The bundle entries of a filled plist. */
  predicate HeadFilled(c: Controller, p: map<string, Value>)
    requires c.Valid()
  {
    && BundleKeys <= p.Keys
    && p["CFBundleIdentifier"] == c.info["identifier"] && p["CFBundleVersion"] == c.info["version"]
    && p["CFBundleName"] == c.info["name"] && p["CFBundleDisplayName"] == c.info["name"]
    && p["CFBundleIconName"] == Str("AppIcon")
    && p["CFBundleShortVersionString"] == Str(VersionShort(c.Version()))
  }

  /** The orientation and launch keys are five different names. */
  lemma TailKeysDiffer()
    ensures |TailKeys| == 5
    ensures "UILaunchImages" != "UISupportedInterfaceOrientations" && "UILaunchImages" != "UISupportedInterfaceOrientations~ipad"
    ensures "UILaunchStoryboardName" != "UISupportedInterfaceOrientations" && "UILaunchStoryboardName" != "UISupportedInterfaceOrientations~ipad"
    ensures "UILaunchStoryboardName" != "UIRequiresFullScreen" && "UILaunchImages" != "UIRequiresFullScreen"
    ensures "UIRequiresFullScreen" != "UISupportedInterfaceOrientations" && "UIRequiresFullScreen" != "UISupportedInterfaceOrientations~ipad"
    ensures "UISupportedInterfaceOrientations" != "UISupportedInterfaceOrientations~ipad" && "UILaunchImages" != "UILaunchStoryboardName"
  {
    assert "UILaunchImages"[3] != "UISupportedInterfaceOrientations"[3];
    assert "UILaunchImages"[3] != "UISupportedInterfaceOrientations~ipad"[3];
    assert "UILaunchStoryboardName"[3] != "UISupportedInterfaceOrientations"[3];
    assert "UILaunchStoryboardName"[3] != "UISupportedInterfaceOrientations~ipad"[3];
    assert "UILaunchStoryboardName"[2] != "UIRequiresFullScreen"[2];
    assert "UILaunchImages"[2] != "UIRequiresFullScreen"[2];
    assert "UIRequiresFullScreen"[2] != "UISupportedInterfaceOrientations"[2];
    assert "UIRequiresFullScreen"[2] != "UISupportedInterfaceOrientations~ipad"[2];
    assert |"UISupportedInterfaceOrientations"| != |"UISupportedInterfaceOrientations~ipad"|;
    assert |"UILaunchImages"| != |"UILaunchStoryboardName"|;
  }

  /** Every entry of `p` outside `keys` is in `q` unchanged. */
  predicate Keeps(p: map<string, Value>, q: map<string, Value>, keys: set<string>) {
    forall k :: k in p && k !in keys ==> k in q && q[k] == p[k]
  }

  /** Setting or deleting a key among `keys`, one after another, keeps the rest. */
  lemma KeepsSteps(p: map<string, Value>, q: map<string, Value>, r: map<string, Value>, keys: set<string>, key: string, v: Value)
    requires key in keys && Keeps(p, q, keys)
    ensures Keeps(p, q[key := v], keys) && Keeps(p, q - {key}, keys)
    ensures Keeps(q, r, keys) ==> Keeps(p, r, keys)
  {
  }

  /** The bundle and permission entries survive any change confined to the orientation and launch keys. */
  lemma HeadKept(c: Controller, p: map<string, Value>, q: map<string, Value>)
    requires c.Valid() && HeadFilled(c, p) && PermissionsFilled(p) && Keeps(p, q, TailKeys)
    ensures HeadFilled(c, q) && PermissionsFilled(q) && q["UIStatusBarHidden"] == p["UIStatusBarHidden"]
  {
    HeadTailDisjoint();
    forall k | k in HeadKeys ensures k in q && q[k] == p[k] {
      assert k in p.Keys;
    }
  }

  /** No bundle or permission key is an orientation or launch key. */
  lemma HeadTailDisjoint()
    ensures HeadKeys !! TailKeys
  {
    forall k | k in TailKeys ensures k !in HeadKeys {
      assert k[0] == 'U' && k[3] != 't';
    }
  }

  /** The bundle entries of a plist, before the permission texts are added. */
  function BundleEntries(c: Controller, plist: map<string, Value>, hidden: Value): (r: map<string, Value>)
    requires c.Valid()
    ensures r.Keys == plist.Keys + BundleKeys
    ensures HeadFilled(c, r) && r["UIStatusBarHidden"] == hidden
    ensures Keeps(plist, r, BundleKeys)
  {
    plist["CFBundleIdentifier" := c.info["identifier"]]
      ["CFBundleName" := c.info["name"]]
      ["CFBundleDisplayName" := c.info["name"]]
      ["CFBundleVersion" := c.info["version"]]
      ["CFBundleIconName" := Str("AppIcon")]
      ["CFBundleShortVersionString" := Str(VersionShort(c.Version()))]
      ["UIStatusBarHidden" := hidden]
  }

  /** The usage texts iOS demands for the libraries' calendar, photo and bluetooth references. */
  predicate PermissionsFilled(p: map<string, Value>) {
    && PermissionKeys <= p.Keys
    && p["NSCalendarsUsageDescription"] == Str("This app requires access to your calendar information.")
    && p["NSPhotoLibraryUsageDescription"] == Str("This app requires access to your photo library.")
    && p["NSBluetoothPeripheralUsageDescription"] == Str("This app requires access to a bluetooth peripheral.")
  }

  /** The permission entries of a plist. */
  function PermissionEntries(plist: map<string, Value>): (r: map<string, Value>)
    ensures r.Keys == plist.Keys + PermissionKeys
    ensures PermissionsFilled(r) && Keeps(plist, r, PermissionKeys)
  {
    plist["NSCalendarsUsageDescription" := Str("This app requires access to your calendar information.")]
      ["NSPhotoLibraryUsageDescription" := Str("This app requires access to your photo library.")]
      ["NSBluetoothPeripheralUsageDescription" := Str("This app requires access to a bluetooth peripheral.")]
  }

  /** The bundle names are not permission names. */
  lemma HeadKeysDiffer()
    ensures BundleKeys !! PermissionKeys
  {
    forall k | k in BundleKeys ensures k !in PermissionKeys {
      assert k[0] != 'N';
    }
  }

  /**
   * The bundle and permission entries set from the descriptor before the
   * icons are handled; every other entry is kept.
   */
  function PlistHead(c: Controller, plist: map<string, Value>, hidden: Value): (r: map<string, Value>)
    requires c.Valid()
    ensures r.Keys == plist.Keys + HeadKeys
    ensures HeadFilled(c, r) && PermissionsFilled(r) && r["UIStatusBarHidden"] == hidden
    ensures Keeps(plist, r, HeadKeys)
  {
    var b := BundleEntries(c, plist, hidden);
    HeadKeysDiffer();
    PermissionEntries(b)
  }

  /** The orientation setting of the iOS build. */
  function OrientationSetting(c: Controller): Result<Value> {
    ValueForPlatform(c.shared, "orientation", IosName, Str("both"))
  }

  /** The orientation entries of a filled plist, for orientation setting `v`. */
  predicate OrientationsFilled(v: Value, p: map<string, Value>) {
    && "UISupportedInterfaceOrientations" in p && "UISupportedInterfaceOrientations~ipad" in p
    && p["UISupportedInterfaceOrientations"] == Arr(Strs(AllConstants(OrientationsOf(v))))
    && p["UISupportedInterfaceOrientations~ipad"] == p["UISupportedInterfaceOrientations"]
    && (RequiresFullScreen(v) ==> "UIRequiresFullScreen" in p && p["UIRequiresFullScreen"] == Bool(true))
  }

  /**
   * The launch-image entries: a non-empty `launch_images` setting replaces
   * the storyboard entry, which must be present, by one entry per image;
   * an empty one leaves the plist as it is.
   */
  method SetLaunchImages(launch: Value, plist: map<string, Value>, cwd: string, imageSize: string -> Option<(int, int)>)
    returns (r: Result<map<string, Value>>)
    ensures r.Ok? ==> NonEmpty(launch).Ok?
    ensures NonEmpty(launch).Ok? && !Truthy(launch) ==> r == Ok(plist)
    ensures NonEmpty(launch).Ok? && Truthy(launch) && "UILaunchStoryboardName" !in plist ==> r == Err(KeyError("UILaunchStoryboardName"))
    ensures r.Ok? && Truthy(launch) ==>
      && Iter(launch).Ok? && "UILaunchImages" in r.value && r.value["UILaunchImages"].Arr?
      && LaunchList(Iter(launch).value, Locator(cwd), imageSize, r.value["UILaunchImages"].items)
      && r.value == (plist - {"UILaunchStoryboardName"})["UILaunchImages" := r.value["UILaunchImages"]]
    ensures r.Ok? ==> Keeps(plist, r.value, TailKeys)
  {
    var some := NonEmpty(launch);
    if some.Err? {
      return Err(some.error);
    }
    if !some.value {
      return Ok(plist);
    }
    if "UILaunchStoryboardName" !in plist {
      return Err(KeyError("UILaunchStoryboardName"));
    }
    var images := Iter(launch);
    if images.Err? {
      return Err(images.error);
    }
    var entries := LaunchEntries(images.value, Locator(cwd), imageSize);
    if entries.Err? {
      return Err(entries.error);
    }
    var q := plist - {"UILaunchStoryboardName"};
    TailKeysDiffer();
    KeepsSteps(plist, plist, q, TailKeys, "UILaunchStoryboardName", Null);
    KeepsSteps(plist, q, q, TailKeys, "UILaunchImages", Arr(entries.value));
    r := Ok(q["UILaunchImages" := Arr(entries.value)]);
  }

  /** Setting the two orientation keys changes no other entry. */
  lemma OrientationsSet(q: map<string, Value>, last: Value)
    ensures var u := q["UISupportedInterfaceOrientations" := last]["UISupportedInterfaceOrientations~ipad" := last];
      && Keeps(q, u, TailKeys)
      && ("UILaunchStoryboardName" in u <==> "UILaunchStoryboardName" in q)
      && ("UILaunchImages" in q ==> "UILaunchImages" in u && u["UILaunchImages"] == q["UILaunchImages"])
      && ("UIRequiresFullScreen" in q ==> "UIRequiresFullScreen" in u && u["UIRequiresFullScreen"] == q["UIRequiresFullScreen"])
  {
    TailKeysDiffer();
  }

  /** What the orientation step makes of the plist the launch-image step left. */
  lemma TailSet(v: Value, launch: Value, plist: map<string, Value>, p: map<string, Value>, q: map<string, Value>,
                cwd: string, imageSize: string -> Option<(int, int)>)
    requires p == if RequiresFullScreen(v) then plist["UIRequiresFullScreen" := Bool(true)] else plist
    requires Keeps(p, q, TailKeys) && NonEmpty(launch).Ok?
    requires !Truthy(launch) ==> q == p
    requires Truthy(launch) ==>
      && "UILaunchStoryboardName" in p
      && Iter(launch).Ok? && "UILaunchImages" in q && q["UILaunchImages"].Arr?
      && LaunchList(Iter(launch).value, Locator(cwd), imageSize, q["UILaunchImages"].items)
      && q == (p - {"UILaunchStoryboardName"})["UILaunchImages" := q["UILaunchImages"]]
    ensures var last := Arr(Strs(AllConstants(OrientationsOf(v))));
      var u := q["UISupportedInterfaceOrientations" := last]["UISupportedInterfaceOrientations~ipad" := last];
      && OrientationsFilled(v, u) && Keeps(plist, u, TailKeys)
      && (Truthy(launch) ==>
        && "UILaunchStoryboardName" in plist && "UILaunchStoryboardName" !in u
        && "UILaunchImages" in u && u["UILaunchImages"].Arr?
        && LaunchList(Iter(launch).value, Locator(cwd), imageSize, u["UILaunchImages"].items))
      && (!Truthy(launch) ==> ("UILaunchStoryboardName" in u <==> "UILaunchStoryboardName" in plist))
  {
    var last := Arr(Strs(AllConstants(OrientationsOf(v))));
    var u := q["UISupportedInterfaceOrientations" := last]["UISupportedInterfaceOrientations~ipad" := last];
    TailKeysDiffer();
    OrientationsSet(q, last);
    assert Keeps(plist, p, TailKeys) by {
      KeepsSteps(plist, plist, plist, TailKeys, "UIRequiresFullScreen", Bool(true));
    }
    assert Keeps(plist, u, TailKeys) by {
      KeepsSteps(plist, p, q, TailKeys, "UIRequiresFullScreen", Bool(true));
      KeepsSteps(plist, q, u, TailKeys, "UIRequiresFullScreen", Bool(true));
    }
  }

  /**
   * The orientation and launch-image entries for orientation setting `v`
   * and launch-image setting `launch`: unless `v` is `all` or `sensor` the
   * app requires full screen; the launch images are set; both orientation
   * keys receive the same list of constants.
   */
  method SetTail(v: Value, launch: Value, plist: map<string, Value>, cwd: string, imageSize: string -> Option<(int, int)>)
    returns (r: Result<map<string, Value>>)
    ensures r.Ok? ==> OrientationsFilled(v, r.value) && Keeps(plist, r.value, TailKeys) && NonEmpty(launch).Ok?
    ensures r.Ok? && Truthy(launch) ==>
      && "UILaunchStoryboardName" in plist && "UILaunchStoryboardName" !in r.value
      && Iter(launch).Ok? && "UILaunchImages" in r.value && r.value["UILaunchImages"].Arr?
      && LaunchList(Iter(launch).value, Locator(cwd), imageSize, r.value["UILaunchImages"].items)
    ensures r.Ok? && !Truthy(launch) ==> ("UILaunchStoryboardName" in r.value <==> "UILaunchStoryboardName" in plist)
  {
    var p := plist;
    var os := [v];
    if v == Str("all") || v == Str("sensor") {
      os := [Str("landscape"), Str("portrait")];
    } else {
      p := p["UIRequiresFullScreen" := Bool(true)];
    }
    var q := SetLaunchImages(launch, p, cwd, imageSize);
    if q.Err? {
      return Err(q.error);
    }
    var names := ExpandOrientations(os);
    assert os == OrientationsOf(v);
    var last := Arr(Strs(names));
    var u := q.value["UISupportedInterfaceOrientations" := last]["UISupportedInterfaceOrientations~ipad" := last];
    TailSet(v, launch, plist, p, q.value, cwd, imageSize);
    r := Ok(u);
  }

  /**
   * The orientation and launch-image part of the plist, with the two
   * settings read from the descriptor first.
   */
  method PlistTail(c: Controller, plist: map<string, Value>, cwd: string, imageSize: string -> Option<(int, int)>) returns (r: Result<map<string, Value>>)
    ensures r.Ok? ==> OrientationSetting(c).Ok? && OrientationsFilled(OrientationSetting(c).value, r.value)
    ensures r.Ok? ==> Keeps(plist, r.value, TailKeys)
    ensures r.Ok? ==>
      var lv := ValueForPlatform(c.shared, "launch_images", IosName, Arr([]));
      && lv.Ok? && NonEmpty(lv.value).Ok?
      && (Truthy(lv.value) ==>
            && "UILaunchStoryboardName" in plist && "UILaunchStoryboardName" !in r.value
            && Iter(lv.value).Ok? && "UILaunchImages" in r.value && r.value["UILaunchImages"].Arr?
            && LaunchList(Iter(lv.value).value, Locator(cwd), imageSize, r.value["UILaunchImages"].items))
      && (!Truthy(lv.value) ==> ("UILaunchStoryboardName" in r.value <==> "UILaunchStoryboardName" in plist))
  {
    var orientation := OrientationSetting(c);
    if orientation.Err? {
      return Err(orientation.error);
    }
    var launch := ValueForPlatform(c.shared, "launch_images", IosName, Arr([]));
    if launch.Err? {
      return Err(launch.error);
    }
    r := SetTail(orientation.value, launch.value, plist, cwd, imageSize);
  }

  /**
   * Reading the template's `Info.plist` and setting its bundle and
   * permission entries; a directory in its place or an unreadable plist
   * raises.
   */
  method ReadPlistHead(c: Controller, plistFile: string, iw: IosWorld, host: Machine) returns (r: Result<map<string, Value>>)
    requires c.Valid()
    ensures plistFile !in host.files ==> r.Err?
    ensures r.Ok? ==> HeadFilled(c, r.value) && PermissionsFilled(r.value)
    ensures r.Ok? ==> iw.readPlist(host.files[plistFile]).Some? && Keeps(iw.readPlist(host.files[plistFile]).value, r.value, HeadKeys)
  {
    if !host.IsFile(plistFile) {
      return Err(Raised("IsADirectoryError"));
    }
    var read := iw.readPlist(host.files[plistFile]);
    if read.None? {
      return Err(Raised("InvalidFileException"));
    }
    var hidden := ValueForPlatform(c.shared, "hide_status_bar", IosName, Bool(true));
    if hidden.Err? {
      return Err(hidden.error);
    }
    r := Ok(PlistHead(c, read.value, hidden.value));
  }

  /** The icon step of the plist: icons are copied only for a non-empty list that is not a mapping. */
  method CopyIcons(c: Controller, xcodeDir: string, cwd: string, iw: IosWorld, host: Machine) returns (r: Result<()>)
    modifies host
    ensures host.dirs == old(host.dirs) && old(host.trace) <= host.trace
    ensures Commands(host.trace) == Commands(old(host.trace)) && Removals(host.trace) == Removals(old(host.trace))
    ensures ValueForPlatform(c.shared, "icons", IosName, Arr([])).Err? ==> r.Err? && host.files == old(host.files)
    ensures var icons := ValueForPlatform(c.shared, "icons", IosName, Arr([]));
      icons.Ok? && NonEmpty(icons.value).Ok? && !(Truthy(icons.value) && !icons.value.Obj?) ==>
        r == Ok(()) && host.files == old(host.files)
    ensures var icons := ValueForPlatform(c.shared, "icons", IosName, Arr([]));
      icons.Ok? && NonEmpty(icons.value).Ok? && Truthy(icons.value) && !icons.value.Obj? ==>
        var found := IconSet(AppIconDir(xcodeDir), icons.value, iw.loads, old(host.files));
        && (found.Err? ==> r.Err? && host.files == old(host.files))
        && (found.Ok? ==>
              var out := SlotsOutcome(found.value.0, Picker(found.value.1), AppIconDir(xcodeDir), cwd, old(host.files));
              host.files == out.1 && (r.Ok? <==> out.0.Ok?))
  {
    var icons := ValueForPlatform(c.shared, "icons", IosName, Arr([]));
    if icons.Err? {
      return Err(icons.error);
    }
    var some := NonEmpty(icons.value);
    if some.Err? {
      return Err(some.error);
    }
    if some.value && !icons.value.Obj? {
      var copied := IconSlots(xcodeDir, icons.value, cwd, iw, host);
      if copied.Err? {
        return Err(copied.error);
      }
    }
    r := Ok(());
  }

  /** `Info.plist` of the template copy. */
  function PlistPath(projectBuildDir: string): string {
    Paths.Join(Paths.Join(projectBuildDir, XcodeName), "Info.plist")
  }

  /**
   * The plist step: when the template has an `Info.plist`, it is read, its
   * bundle entries set, the app icons copied (for a non-empty icon list
   * that is not a mapping), its orientation and launch-image entries set,
   * and it is written back. Returns the plist written, if any.
   */
  method FillPlist(c: Controller, projectBuildDir: string, cwd: string, iw: IosWorld, host: Machine) returns (r: Result<Option<map<string, Value>>>)
    requires c.Valid()
    modifies host
    ensures host.dirs == old(host.dirs) && old(host.trace) <= host.trace
    ensures Commands(host.trace) == Commands(old(host.trace)) && Removals(host.trace) == Removals(old(host.trace))
    ensures !old(host.Exists(PlistPath(projectBuildDir))) ==> r == Ok(None) && host.files == old(host.files)
    ensures r.Ok? && r.value.Some? ==>
      && old(host.Exists(PlistPath(projectBuildDir)))
      && PlistPath(projectBuildDir) in host.files && host.files[PlistPath(projectBuildDir)] == iw.writePlist(r.value.value)
      && HeadFilled(c, r.value.value) && PermissionsFilled(r.value.value)
      && OrientationSetting(c).Ok? && OrientationsFilled(OrientationSetting(c).value, r.value.value)
  {
    var xcodeDir := Paths.Join(projectBuildDir, XcodeName);
    var plistFile := PlistPath(projectBuildDir);
    if !host.Exists(plistFile) {
      return Ok(None);
    }
    var head := ReadPlistHead(c, plistFile, iw, host);
    if head.Err? {
      return Err(head.error);
    }
    var plist := head.value;
    var copied := CopyIcons(c, xcodeDir, cwd, iw, host);
    if copied.Err? {
      return Err(copied.error);
    }
    var tail := PlistTail(c, plist, cwd, iw.imageSize);
    if tail.Err? {
      return Err(tail.error);
    }
    HeadKept(c, plist, tail.value);
    host.WriteFile(plistFile, iw.writePlist(tail.value));
    r := Ok(Some(tail.value));
  }

  // ---------------------------------------------------------------- staging

  /** `Script` inside the template copy, where the app's sources go. */
  function ScriptDir(projectBuildDir: string): string {
    Paths.Join(projectBuildDir, "Script")
  }

  /**
   * The staging steps: the sources are copied into `Script` ignoring the
   * settings' ignore paths followed by the descriptor's asset directories,
   * the descriptor is written, and the pew module and the data files are
   * staged. Returns the ignore list used.
   */
  method StageScripts(c: Controller, s: Settings, world: World, projectBuildDir: string, host: Machine) returns (r: Result<seq<string>>)
    requires c.Valid()
    modifies host
    ensures r.Ok? <==> "asset_dirs" in c.info
    ensures r.Err? ==> r.error == KeyError("asset_dirs") && host.trace == old(host.trace)
    ensures r.Ok? ==>
      && r.value == s.ignorePaths + StrItems(c.info["asset_dirs"])
      && |host.trace| > |old(host.trace)| && host.trace[|old(host.trace)|] == Staged("copy_files", ScriptDir(projectBuildDir), r.value)
      && host.files == old(host.files)[Paths.Join(PlatformDirPath(c, "build"), "project_info.json") := world.dumps(c.info)]
    ensures old(host.trace) <= host.trace
    ensures Commands(host.trace) == Commands(old(host.trace)) && Removals(host.trace) == Removals(old(host.trace))
  {
    var destDir := ScriptDir(projectBuildDir);
    if "asset_dirs" !in c.info {
      return Err(KeyError("asset_dirs"));
    }
    var ignore := s.ignorePaths + StrItems(c.info["asset_dirs"]);
    ghost var t0 := host.trace;
    host.Stage("copy_files", destDir, ignore);
    ghost var t1 := host.trace;
    var _ := GenerateProjectInfoFile(c, world, host);
    host.Stage("copy_pew_module", destDir, []);
    var data := GetAppDataFiles(c, world);
    host.Stage("copy_data_files", projectBuildDir, []);
    assert host.trace[|t0|] == t1[|t0|];
    r := Ok(ignore);
  }

  // ---------------------------------------------------------------- icon files

  /** `p` is what the `icons/ios` glob yields below `dir`: a direct entry whose name does not start with a dot. */
  predicate IconEntry(p: string, dir: string) {
    && Text.StartsWith(p, dir + "/")
    && var name := p[|dir| + 1..];
      name != "" && '/' !in name && name[0] != '.'
  }

  /** The entries of `dir` that the glob matches, files and directories alike. */
  function IconEntries(files: map<string, string>, dirs: set<string>, dir: string): set<string> {
    (set p | p in files && IconEntry(p, dir)) + (set d | d in dirs && IconEntry(d, dir))
  }

  /** Where an icon file is copied: the template copy, under the same name. */
  function IconDest(projectBuildDir: string, p: string): string {
    Paths.Join(projectBuildDir, Paths.Basename(p))
  }

  /** An entry is its directory, a slash and its base name. */
  lemma EntryName(p: string, dir: string)
    requires IconEntry(p, dir)
    ensures Paths.Basename(p) == p[|dir| + 1..] && p == dir + "/" + Paths.Basename(p)
  {
    var name := p[|dir| + 1..];
    assert p == (dir + "/") + name;
    Text.RFindPastSuffix(dir + "/", name, '/');
  }

  /** Two entries of the same directory copied to the same place are the same entry. */
  lemma DestsDiffer(projectBuildDir: string, dir: string, p: string, q: string)
    requires IconEntry(p, dir) && IconEntry(q, dir)
    requires IconDest(projectBuildDir, p) == IconDest(projectBuildDir, q)
    ensures p == q
  {
    EntryName(p, dir);
    EntryName(q, dir);
    Paths.BasenameOfJoin(projectBuildDir, Paths.Basename(p));
    Paths.BasenameOfJoin(projectBuildDir, Paths.Basename(q));
  }

  /** When one entry is copied onto another, that other one is copied onto itself. */
  lemma DestOnSource(projectBuildDir: string, dir: string, p: string, q: string)
    requires IconEntry(p, dir) && IconEntry(q, dir)
    requires IconDest(projectBuildDir, p) == q
    ensures IconDest(projectBuildDir, q) == q
  {
    EntryName(p, dir);
    EntryName(q, dir);
    Paths.BasenameOfJoin(projectBuildDir, Paths.Basename(p));
  }

  /** The copy destination of every icon entry, as one function. */
  function DestOf(projectBuildDir: string): string -> string {
    p => IconDest(projectBuildDir, p)
  }

  /** `f` is where one of the first `n` of `srcs` is copied. */
  predicate CopiedTo(srcs: seq<string>, n: int, dest: string -> string, f: string)
    requires 0 <= n <= |srcs|
  {
    exists j :: 0 <= j < n && dest(srcs[j]) == f
  }

  /** No two of `srcs` are copied to the same place. */
  predicate Separated(srcs: seq<string>, dest: string -> string) {
    forall i, j :: 0 <= i < |srcs| && 0 <= j < |srcs| && dest(srcs[i]) == dest(srcs[j]) ==> i == j
  }

  /** Whatever is copied onto one of `srcs` is that entry copied onto itself. */
  predicate OntoSelfOnly(srcs: seq<string>, dest: string -> string) {
    forall i, j :: 0 <= i < |srcs| && 0 <= j < |srcs| && dest(srcs[i]) == srcs[j] ==> dest(srcs[j]) == srcs[j]
  }

  /** The entries of one directory, copied under their own names, meet both conditions. */
  lemma EntriesSeparated(srcs: seq<string>, projectBuildDir: string, dir: string)
    requires Distinct(srcs) && forall i :: 0 <= i < |srcs| ==> IconEntry(srcs[i], dir)
    ensures Separated(srcs, DestOf(projectBuildDir)) && OntoSelfOnly(srcs, DestOf(projectBuildDir))
  {
    var dest := DestOf(projectBuildDir);
    forall i, j | 0 <= i < |srcs| && 0 <= j < |srcs| && dest(srcs[i]) == dest(srcs[j]) ensures i == j {
      DestsDiffer(projectBuildDir, dir, srcs[i], srcs[j]);
    }
    forall i, j | 0 <= i < |srcs| && 0 <= j < |srcs| && dest(srcs[i]) == srcs[j] ensures dest(srcs[j]) == srcs[j] {
      DestOnSource(projectBuildDir, dir, srcs[i], srcs[j]);
    }
  }

  /**
   * After copying the first `k` of `srcs` from `files0`: each of them sits
   * at its destination with its original text, and every other file is
   * as it was.
   */
  predicate CopiedSoFar(srcs: seq<string>, k: int, dest: string -> string, files0: map<string, string>, files: map<string, string>)
    requires 0 <= k <= |srcs|
  {
    && (forall i :: 0 <= i < k ==>
          && srcs[i] in files0
          && dest(srcs[i]) in files
          && files[dest(srcs[i])] == files0[srcs[i]])
    && (forall f :: f in files ==> f in files0 || CopiedTo(srcs, k, dest, f))
    && (forall f :: f in files0 && !CopiedTo(srcs, k, dest, f) ==> f in files && files[f] == files0[f])
  }

  /** The destinations of a longer prefix are those of the shorter one and the next entry's. */
  lemma CopiedToNext(srcs: seq<string>, k: int, dest: string -> string)
    requires 0 <= k < |srcs|
    ensures forall f :: CopiedTo(srcs, k + 1, dest, f) <==> CopiedTo(srcs, k, dest, f) || f == dest(srcs[k])
  {
    forall f | CopiedTo(srcs, k + 1, dest, f) && f != dest(srcs[k]) ensures CopiedTo(srcs, k, dest, f) {
      var j :| 0 <= j < k + 1 && dest(srcs[j]) == f;
    }
    forall f | CopiedTo(srcs, k, dest, f) ensures CopiedTo(srcs, k + 1, dest, f) {
      var j :| 0 <= j < k && dest(srcs[j]) == f;
    }
    assert CopiedTo(srcs, k + 1, dest, dest(srcs[k]));
  }

  /** Copying the next entry, a file other than its destination, extends the copied prefix by one. */
  lemma CopyStep(srcs: seq<string>, k: int, dest: string -> string, files0: map<string, string>, files: map<string, string>)
    requires 0 <= k < |srcs| && Separated(srcs, dest) && OntoSelfOnly(srcs, dest)
    requires CopiedSoFar(srcs, k, dest, files0, files)
    requires srcs[k] in files && dest(srcs[k]) != srcs[k]
    ensures CopiedSoFar(srcs, k + 1, dest, files0, files[dest(srcs[k]) := files[srcs[k]]])
  {
    SourceUntouched(srcs, k, dest, files0, files);
    CopiedToNext(srcs, k, dest);
    CopyStepCopied(srcs, k, dest, files0, files);
    CopyStepRest(srcs, k, dest, files0, files);
  }

  /** The next source has not been overwritten by the copies before it. */
  lemma SourceUntouched(srcs: seq<string>, k: int, dest: string -> string, files0: map<string, string>, files: map<string, string>)
    requires 0 <= k < |srcs| && Separated(srcs, dest) && OntoSelfOnly(srcs, dest)
    requires CopiedSoFar(srcs, k, dest, files0, files)
    requires srcs[k] in files
    ensures srcs[k] in files0 && files[srcs[k]] == files0[srcs[k]]
  {
    var src := srcs[k];
    assert !CopiedTo(srcs, k, dest, src) by {
      forall j | 0 <= j < k ensures dest(srcs[j]) != src {
        if dest(srcs[j]) == src {
          assert false;
        }
      }
    }
  }

  lemma CopyStepCopied(srcs: seq<string>, k: int, dest: string -> string, files0: map<string, string>, files: map<string, string>)
    requires 0 <= k < |srcs| && Separated(srcs, dest)
    requires CopiedSoFar(srcs, k, dest, files0, files)
    requires srcs[k] in files && srcs[k] in files0 && files[srcs[k]] == files0[srcs[k]]
    ensures var after := files[dest(srcs[k]) := files[srcs[k]]];
      forall i :: 0 <= i < k + 1 ==> srcs[i] in files0 && dest(srcs[i]) in after && after[dest(srcs[i])] == files0[srcs[i]]
  {
    var to := dest(srcs[k]);
    var after := files[to := files[srcs[k]]];
    forall i | 0 <= i < k + 1
      ensures srcs[i] in files0 && dest(srcs[i]) in after && after[dest(srcs[i])] == files0[srcs[i]]
    {
      if i < k {
        assert dest(srcs[i]) != to;
      }
    }
  }

  lemma CopyStepRest(srcs: seq<string>, k: int, dest: string -> string, files0: map<string, string>, files: map<string, string>)
    requires 0 <= k < |srcs|
    requires CopiedSoFar(srcs, k, dest, files0, files)
    requires forall f :: CopiedTo(srcs, k + 1, dest, f) <==> CopiedTo(srcs, k, dest, f) || f == dest(srcs[k])
    requires srcs[k] in files
    ensures var after := files[dest(srcs[k]) := files[srcs[k]]];
      && (forall f :: f in after ==> f in files0 || CopiedTo(srcs, k + 1, dest, f))
      && (forall f :: f in files0 && !CopiedTo(srcs, k + 1, dest, f) ==> f in after && after[f] == files0[f])
  {
    var to := dest(srcs[k]);
    var after := files[to := files[srcs[k]]];
    forall f | f in after ensures f in files0 || CopiedTo(srcs, k + 1, dest, f) {
      if f != to {
        assert f in files;
      }
    }
    forall f | f in files0 && !CopiedTo(srcs, k + 1, dest, f) ensures f in after && after[f] == files0[f] {
      assert !CopiedTo(srcs, k, dest, f) && f != to;
    }
  }

  /**
   * The copy loop over the glob's entries, in the given order: each entry
   * must be a file other than its destination, and lands at `dest` of
   * itself with its text.
   */
  method CopyEach(srcs: seq<string>, dest: string -> string, host: Machine) returns (r: Result<nat>)
    requires Separated(srcs, dest) && OntoSelfOnly(srcs, dest)
    modifies host
    ensures host.dirs == old(host.dirs) && old(host.trace) <= host.trace
    ensures Commands(host.trace) == Commands(old(host.trace)) && Removals(host.trace) == Removals(old(host.trace))
    ensures r.Ok? ==> r.value == |srcs| && CopiedSoFar(srcs, |srcs|, dest, old(host.files), host.files)
    ensures forall f :: f in host.files ==> f in old(host.files) || CopiedTo(srcs, |srcs|, dest, f)
    ensures forall f :: f in old(host.files) && !CopiedTo(srcs, |srcs|, dest, f) ==> f in host.files && host.files[f] == old(host.files)[f]
  {
    var k := 0;
    while k < |srcs|
      invariant 0 <= k <= |srcs|
      invariant host.dirs == old(host.dirs) && old(host.trace) <= host.trace
      invariant Commands(host.trace) == Commands(old(host.trace)) && Removals(host.trace) == Removals(old(host.trace))
      invariant CopiedSoFar(srcs, k, dest, old(host.files), host.files)
    {
      var src := srcs[k];
      var to := dest(src);
      if src == to {
        CopiedLess(srcs, k, dest, old(host.files), host.files);
        return Err(Raised("SameFileError"));
      }
      if !host.IsFile(src) {
        CopiedLess(srcs, k, dest, old(host.files), host.files);
        return Err(Raised("IsADirectoryError"));
      }
      CopyStep(srcs, k, dest, old(host.files), host.files);
      host.CopyFile(src, to);
      k := k + 1;
    }
    r := Ok(k);
  }

  /** What a stopped copy loop has changed lies within the destinations of the whole list. */
  lemma CopiedLess(srcs: seq<string>, k: int, dest: string -> string, files0: map<string, string>, files: map<string, string>)
    requires 0 <= k <= |srcs| && CopiedSoFar(srcs, k, dest, files0, files)
    ensures forall f :: f in files ==> f in files0 || CopiedTo(srcs, |srcs|, dest, f)
    ensures forall f :: f in files0 && !CopiedTo(srcs, |srcs|, dest, f) ==> f in files && files[f] == files0[f]
  {
    forall f | CopiedTo(srcs, k, dest, f) ensures CopiedTo(srcs, |srcs|, dest, f) {
      var j :| 0 <= j < k && dest(srcs[j]) == f;
    }
  }

  /** The icons directory the glob lists, as an absolute path. */
  function IconsDir(cwd: string): string {
    Paths.Abspath(cwd, Paths.Join("icons", "ios"))
  }

  /**
   * The loop over the `icons/ios` glob: every matched entry is copied into
   * the template copy under its own name; no other file changes. Returns
   * the entries in the order they were copied.
   */
  method CopyIconFiles(cwd: string, projectBuildDir: string, host: Machine) returns (r: Result<seq<string>>)
    modifies host
    ensures host.dirs == old(host.dirs) && old(host.trace) <= host.trace
    ensures Commands(host.trace) == Commands(old(host.trace)) && Removals(host.trace) == Removals(old(host.trace))
    ensures r.Ok? ==>
      && Listing(r.value, IconEntries(old(host.files), old(host.dirs), IconsDir(cwd)))
      && forall i :: 0 <= i < |r.value| ==>
           && r.value[i] in old(host.files)
           && IconDest(projectBuildDir, r.value[i]) in host.files
           && host.files[IconDest(projectBuildDir, r.value[i])] == old(host.files)[r.value[i]]
    ensures r.Ok? ==>
      && (forall f :: f in host.files ==> f in old(host.files) || CopiedTo(r.value, |r.value|, DestOf(projectBuildDir), f))
      && (forall f :: f in old(host.files) && !CopiedTo(r.value, |r.value|, DestOf(projectBuildDir), f) ==> f in host.files && host.files[f] == old(host.files)[f])
  {
    var dir := IconsDir(cwd);
    var order := ListMembers(IconEntries(host.files, host.dirs, dir));
    EntriesSeparated(order, projectBuildDir, dir);
    var copied := CopyEach(order, DestOf(projectBuildDir), host);
    if copied.Err? {
      return Err(copied.error);
    }
    r := Ok(order);
  }

  // ---------------------------------------------------------------- the build

  /** `native/ios/PythonistaAppTemplate-master` below the project root. */
  function TemplatePath(c: Controller): string {
    Paths.JoinAll([c.root, "native", "ios", TemplateName])
  }

  /** The copy of the template inside the build directory. */
  function ProjectBuildDir(c: Controller): string {
    Paths.Join(PlatformDirPath(c, "build"), Paths.Basename(TemplatePath(c)))
  }

  function ProjectFile(c: Controller): string {
    Paths.Join(ProjectBuildDir(c), "PythonistaAppTemplate.xcodeproj")
  }

  /** The command that opens the Xcode project, its spaces escaped. */
  function OpenCommand(c: Controller): seq<string> {
    ["open", Text.Replace(ProjectFile(c), " ", "\\ ")]
  }

  /** A project path without spaces is passed to `open` unchanged. */
  lemma OpenCommandPlain(c: Controller)
    requires !Text.Contains(ProjectFile(c), " ")
    ensures OpenCommand(c) == ["open", ProjectFile(c)]
  {
    Text.ReplaceAbsent(ProjectFile(c), " ", "\\ ");
  }

  /**
   * The placeholder app name in the Xcode configuration is replaced by the
   * app's name when the configuration file is there.
   */
  method RenameProject(c: Controller, configFile: string, host: Machine) returns (r: Result<bool>)
    requires c.Valid()
    modifies host
    ensures host.dirs == old(host.dirs) && old(host.trace) <= host.trace
    ensures Commands(host.trace) == Commands(old(host.trace)) && Removals(host.trace) == Removals(old(host.trace))
    ensures r == Ok(false) <==> !old(host.Exists(configFile))
    ensures r == Ok(true) ==>
      && configFile in old(host.files)
      && host.files == old(host.files)[configFile := Text.Replace(old(host.files)[configFile], PlaceholderName, c.Name())]
    ensures !(r == Ok(true)) ==> host.files == old(host.files)
  {
    if !host.Exists(configFile) {
      return Ok(false);
    }
    if !host.IsFile(configFile) {
      return Err(Raised("IsADirectoryError"));
    }
    host.WriteFile(configFile, Text.Replace(host.files[configFile], PlaceholderName, c.Name()));
    r := Ok(true);
  }

  /**
   * The names bound at the top level of `ios.py`: its own imports, what
   * `from .utils import *` brings (the two modules `utils.py` imports, its
   * three globals and four functions), and its own definitions. `shutil` is
   * not among them, and neither is `cwd`.
   */
  const ModuleGlobals: set<string> := {
    "glob", "subprocess", "sys", "pbxproj", "plistlib", "pewtools", "BaseBuildController",
    "json", "os", "default_key", "info_json", "pew_config",
    "get_pew_config", "set_project_info", "get_value_for_platform", "get_value_for_config",
    "this_dir", "files_dir", "IOSBuildController"}

  /** Looking a global name up from a method of `ios.py`. */
  function Global(name: string): (r: Result<()>)
    ensures r.Ok? <==> name in ModuleGlobals
  {
    if name in ModuleGlobals then Ok(())
    else Err(Raised(NameErrorText(name)))
  }

  /** The message of the `NameError` an unbound name raises. */
  function NameErrorText(name: string): string {
    "NameError: name '" + name + "' is not defined"
  }

  /** The two names the copy steps of the build use are unbound, while the ones around them are bound. */
  lemma CopyNamesUnbound()
    ensures Global("shutil") == Err(Raised(NameErrorText("shutil")))
    ensures Global("cwd") == Err(Raised(NameErrorText("cwd")))
    ensures Global("os").Ok? && Global("sys").Ok? && Global("glob").Ok?
  {
    assert "shutil" !in ModuleGlobals by {
      assert forall n :: n in ModuleGlobals ==> |n| != 6;
    }
    assert "cwd" !in ModuleGlobals by {
      assert forall n :: n in ModuleGlobals && |n| == 3 ==> n == "sys";
      assert "cwd"[0] != "sys"[0];
    }
  }

  /**
   * `build(settings)` as written: the build directory is created, a missing
   * template exits, and otherwise the `rmtree` of the build directory, which
   * `get_build_dir` has just created, looks up `shutil` and raises
   * `NameError` before anything is removed, copied or run.
   */
  method BuildAsWritten(c: Controller, host: Machine) returns (r: Result<int>)
    modifies host
    ensures host.files == old(host.files) && old(host.dirs) <= host.dirs <= old(host.dirs) + {PlatformDirPath(c, "build")}
    ensures Commands(host.trace) == Commands(old(host.trace)) && Removals(host.trace) == Removals(old(host.trace))
    ensures !old(host.Exists(TemplatePath(c))) && TemplatePath(c) != PlatformDirPath(c, "build") ==> r == Err(SystemExit(1))
    ensures old(host.Exists(TemplatePath(c))) ==> r == Err(Raised(NameErrorText("shutil")))
  {
    var buildDir := GetBuildDir(c, host);
    var projectDir := TemplatePath(c);
    if !host.Exists(projectDir) {
      return Err(SystemExit(1));
    }
    assert host.Exists(buildDir);
    CopyNamesUnbound();
    var shutil := Global("shutil");
    r := Err(shutil.error);
  }

  /** A `Staged` event recorded before more events are appended is still there. */
  lemma StillStaged(t0: seq<Event>, t1: seq<Event>, i: int)
    requires 0 <= i < |t0| && t0 <= t1
    ensures t1[i] == t0[i] && t0[i] in t1
  {
    assert t1[..|t0|] == t0;
    assert t1[..|t0|][i] == t1[i];
  }

  /**
   * `build(settings)`: a missing template exits before anything is removed;
   * otherwise the build directory is removed and refilled from the template,
   * the plist completed, scripts, data and icons staged, the project renamed
   * and `open` run once, and the build reports success whatever `open`
   * returns.
   */
  method Build(c: Controller, s: Settings, world: World, iw: IosWorld, host: Machine) returns (r: Result<int>)
    requires c.Valid()
    modifies host
    ensures !old(host.Exists(TemplatePath(c))) && TemplatePath(c) != PlatformDirPath(c, "build") ==>
      r == Err(SystemExit(1)) && Removals(host.trace) == Removals(old(host.trace)) && Commands(host.trace) == Commands(old(host.trace))
    ensures "asset_dirs" !in c.info ==> r.Err?
    ensures !StrRequirements(s) ==> r.Err? && Commands(host.trace) == Commands(old(host.trace))
    ensures r.Err? && StrRequirements(s) ==>
      Pewtools.InstallsBegun(Commands(old(host.trace)), Commands(host.trace), IosVenv(PlatformDirPath(c, "build")), IosDeps(s).value)
    ensures r.Ok? ==>
      && r.value == 0 && StrRequirements(s)
      && Commands(host.trace) == Commands(old(host.trace)) + Pewtools.PipInstalls(IosVenv(PlatformDirPath(c, "build")), IosDeps(s).value) + [OpenCommand(c)]
      && Removals(host.trace) == Removals(old(host.trace)) + [PlatformDirPath(c, "build")]
      && "asset_dirs" in c.info
      && Staged("copy_files", ScriptDir(ProjectBuildDir(c)), s.ignorePaths + StrItems(c.info["asset_dirs"])) in host.trace
  {
    var buildDir := GetBuildDir(c, host);
    var projectDir := TemplatePath(c);
    if !host.Exists(projectDir) {
      if StrRequirements(s) {
        Pewtools.NoInstallsBegun(Commands(host.trace), IosVenv(buildDir), IosDeps(s).value);
      }
      return Err(SystemExit(1));
    }
    if host.Exists(buildDir) {
      host.RemoveTree(buildDir);
    }
    var projectBuildDir := Paths.Join(buildDir, Paths.Basename(projectDir));
    host.CopyTree(projectDir, projectBuildDir);
    r := Fill(c, s, world, iw, buildDir, projectBuildDir, host);
    if r.Err? {
      return;
    }
    ghost var t := host.trace;
    var _ := RunCmd(OpenCommand(c), host);
    StillIn(Staged("copy_files", ScriptDir(projectBuildDir), s.ignorePaths + StrItems(c.info["asset_dirs"])), t, host.trace);
  }

  /** An event once in the trace stays there as the trace grows. */
  lemma StillIn(e: Event, t0: seq<Event>, t1: seq<Event>)
    requires e in t0 && t0 <= t1
    ensures e in t1
  {
    var i :| 0 <= i < |t0| && t0[i] == e;
    assert t1[..|t0|] == t0;
    assert t1[..|t0|][i] == t1[i];
  }

  /**
   * Everything between the template copy and `open`: the plist, the
   * staging steps, the icon files, the dependencies and the project rename.
   */
  method Fill(c: Controller, s: Settings, world: World, iw: IosWorld, buildDir: string, projectBuildDir: string, host: Machine)
    returns (r: Result<int>)
    requires c.Valid()
    modifies host
    ensures Removals(host.trace) == Removals(old(host.trace))
    ensures "asset_dirs" !in c.info ==> r.Err?
    ensures !StrRequirements(s) ==> r.Err? && Commands(host.trace) == Commands(old(host.trace))
    ensures StrRequirements(s) ==> Pewtools.InstallsBegun(Commands(old(host.trace)), Commands(host.trace), IosVenv(buildDir), IosDeps(s).value)
    ensures r.Ok? ==>
      && r.value == 0 && "asset_dirs" in c.info && StrRequirements(s)
      && Commands(host.trace) == Commands(old(host.trace)) + Pewtools.PipInstalls(IosVenv(buildDir), IosDeps(s).value)
      && Staged("copy_files", ScriptDir(projectBuildDir), s.ignorePaths + StrItems(c.info["asset_dirs"])) in host.trace
  {
    ghost var cmds0 := Commands(host.trace);
    var plist := FillPlist(c, projectBuildDir, world.cwd, iw, host);
    if plist.Err? {
      if StrRequirements(s) {
        Pewtools.NoInstallsBegun(cmds0, IosVenv(buildDir), IosDeps(s).value);
      }
      return Err(plist.error);
    }
    ghost var t0 := host.trace;
    var staged := StageScripts(c, s, world, projectBuildDir, host);
    if staged.Err? {
      if StrRequirements(s) {
        Pewtools.NoInstallsBegun(cmds0, IosVenv(buildDir), IosDeps(s).value);
      }
      return Err(staged.error);
    }
    ghost var t1 := host.trace;
    var finished := FinishProject(c, s, world.cwd, iw, buildDir, projectBuildDir, host);
    if finished.Err? {
      return Err(finished.error);
    }
    StillStaged(t1, host.trace, |t0|);
    r := Ok(0);
  }

  /** The Xcode project configuration that `XcodeProject.load` reads. */
  function ConfigFile(projectBuildDir: string): string {
    Paths.Join(Paths.Join(projectBuildDir, "PythonistaAppTemplate.xcodeproj"), "project.pbxproj")
  }

  /** The virtual environment `copy_deps_to_build` installs into, below the platform build directory. */
  function IosVenv(buildDir: string): string {
    Paths.Join(buildDir, "venv")
  }

  /** The settings' requirements, when every one is a string. */
  predicate StrRequirements(s: Settings) {
    IsStrList(Arr(s.requirements))
  }

  /** The edits `add_file` makes for the copied icon files, one per file, by base name. */
  function AddFileEdits(copied: seq<string>): (r: seq<(string, Value)>)
    ensures |r| == |copied|
    ensures forall i :: 0 <= i < |copied| ==> r[i] == ("add_file", Str(Paths.Basename(copied[i])))
  {
    if copied == [] then [] else [("add_file", Str(Paths.Basename(copied[0])))] + AddFileEdits(copied[1..])
  }

  /** The two flags removed so that the template's own bundle identifier and app icon are not used. */
  const CodesignFlags: seq<(string, Value)> := [
    ("remove_flags", Arr([Str("PRODUCT_BUNDLE_IDENTIFIER"), Str("com.omz-software.PythonistaAppTemplate")])),
    ("remove_flags", Arr([Str("ASSETCATALOG_COMPILER_APPICON_NAME"), Str("AppIcon")]))]

  /** The descriptor names a development team under `codesign`, `ios`. */
  predicate TeamGiven(info: map<string, Value>) {
    && "codesign" in info && info["codesign"].Obj?
    && "ios" in info["codesign"].fields && info["codesign"].fields["ios"].Obj?
    && "development_team" in info["codesign"].fields["ios"].fields
  }

  /**
   * The signing edits: none without `codesign` or without `ios` in it;
   * otherwise the two flags removed and the development team set. `in` and
   * the subscripts raise as Python's do on values of the wrong type.
   */
  function CodesignEdits(info: map<string, Value>): (r: Result<seq<(string, Value)>>)
    ensures "codesign" !in info ==> r == Ok([])
    ensures TeamGiven(info) ==>
      r == Ok(CodesignFlags + [("DevelopmentTeam", info["codesign"].fields["ios"].fields["development_team"])])
    ensures r.Ok? && r.value != [] ==> TeamGiven(info)
    ensures r.Ok? ==> r.value == [] || |r.value| == 3
    ensures "codesign" in info && info["codesign"].Obj? && "ios" in info["codesign"].fields && !TeamGiven(info) ==> r.Err?
  {
    if "codesign" !in info then Ok([])
    else
      var named :- In(Str("ios"), info["codesign"]);
      if !named then Ok([])
      else
        var ios :- Subscript(info["codesign"], Str("ios"));
        var team :- Subscript(ios, Str("development_team"));
        Ok(CodesignFlags + [("DevelopmentTeam", team)])
  }

  /** The settings' requirements as `copy_deps_to_build` receives them. */
  function IosDeps(s: Settings): (r: Result<seq<string>>)
    ensures r.Ok? <==> StrRequirements(s)
    ensures r.Ok? ==> Strs(r.value) == s.requirements
  {
    if IsStrList(Arr(s.requirements)) then Ok(StrItems(Arr(s.requirements)))
    else Err(TypeError("requirement is not a string"))
  }

  /**
   * The Xcode project step: the project is loaded (a missing configuration
   * raises before anything else happens), the icon files are copied and
   * added to it, the signing edits made and the project saved. Returns the
   * icon files copied; the save is the last event.
   */
  method UpdateProject(c: Controller, cwd: string, projectBuildDir: string, host: Machine) returns (r: Result<seq<string>>)
    modifies host
    ensures old(host.trace) <= host.trace
    ensures Commands(host.trace) == Commands(old(host.trace)) && Removals(host.trace) == Removals(old(host.trace))
    ensures !old(host.IsFile(ConfigFile(projectBuildDir))) ==> r.Err? && host.trace == old(host.trace) && host.files == old(host.files)
    ensures CodesignEdits(c.info).Err? ==> r.Err?
    ensures r.Ok? ==>
      && old(host.IsFile(ConfigFile(projectBuildDir)))
      && Listing(r.value, IconEntries(old(host.files), old(host.dirs), IconsDir(cwd)))
      && CodesignEdits(c.info).Ok?
      && |host.trace| > 0 && host.trace[|host.trace| - 1] == ProjectSaved(ConfigFile(projectBuildDir), AddFileEdits(r.value) + CodesignEdits(c.info).value)
  {
    var configFile := ConfigFile(projectBuildDir);
    if !host.IsFile(configFile) {
      return Err(Raised(if host.Exists(configFile) then "IsADirectoryError" else "FileNotFoundError"));
    }
    var copied := CopyIconFiles(cwd, projectBuildDir, host);
    if copied.Err? {
      return Err(copied.error);
    }
    var edits := CodesignEdits(c.info);
    if edits.Err? {
      return Err(edits.error);
    }
    host.SaveProject(configFile, AddFileEdits(copied.value) + edits.value);
    r := Ok(copied.value);
  }

  /**
   * After the staging steps: the Xcode project is updated and saved, then
   * the requirements are installed and the new site-packages entries
   * copied into `Script`, and finally the placeholder name replaced.
   * Returns the icon files copied.
   */
  method FinishProject(c: Controller, s: Settings, cwd: string, iw: IosWorld, buildDir: string, projectBuildDir: string, host: Machine)
    returns (r: Result<seq<string>>)
    requires c.Valid()
    modifies host
    ensures old(host.trace) <= host.trace
    ensures !old(host.IsFile(ConfigFile(projectBuildDir))) ==> r.Err? && host.trace == old(host.trace) && host.files == old(host.files)
    ensures Removals(host.trace) == Removals(old(host.trace))
    ensures !StrRequirements(s) ==> r.Err? && Commands(host.trace) == Commands(old(host.trace))
    ensures StrRequirements(s) ==> Pewtools.InstallsBegun(Commands(old(host.trace)), Commands(host.trace), IosVenv(buildDir), IosDeps(s).value)
    ensures CodesignEdits(c.info).Err? ==> r.Err?
    ensures r.Ok? ==>
      && old(host.IsFile(ConfigFile(projectBuildDir)))
      && StrRequirements(s) && iw.sites != []
      && Commands(host.trace) == Commands(old(host.trace)) + Pewtools.PipInstalls(IosVenv(buildDir), IosDeps(s).value)
      && Listing(r.value, IconEntries(old(host.files), old(host.dirs), IconsDir(cwd)))
      && CodesignEdits(c.info).Ok?
      && ProjectSaved(ConfigFile(projectBuildDir), AddFileEdits(r.value) + CodesignEdits(c.info).value) in host.trace
  {
    ghost var cmds0 := Commands(host.trace);
    ghost var t0 := host.trace;
    if StrRequirements(s) {
      Pewtools.NoInstallsBegun(cmds0, IosVenv(buildDir), IosDeps(s).value);
    }
    var updated := UpdateProject(c, cwd, projectBuildDir, host);
    if updated.Err? {
      return Err(updated.error);
    }
    ghost var t := host.trace;
    ghost var saved := t[|t| - 1];
    var deps := IosDeps(s);
    if deps.Err? {
      return Err(deps.error);
    }
    var copiedDeps := Pewtools.CopyDepsToBuild(deps.value, buildDir, ScriptDir(projectBuildDir), iw.sites, iw.sitesBefore, iw.sitesAfter, host);
    PrefixTrans(t0, t, host.trace);
    if copiedDeps.Err? {
      return Err(copiedDeps.error);
    }
    ghost var t2 := host.trace;
    var renamed := RenameProject(c, ConfigFile(projectBuildDir), host);
    PrefixTrans(t0, t2, host.trace);
    PrefixTrans(t, t2, host.trace);
    if renamed.Err? {
      return Err(renamed.error);
    }
    StillIn(saved, t, host.trace);
    r := updated;
  }
}
