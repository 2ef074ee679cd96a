/** `HealthChecker`: classifies the device and the installed files into
    errors (which make the app unhealthy) and warnings (which do not), and
    renders the result as a text report.

    The platform probes (API level, maximum heap, ABIs, file sizes, library
    loading, free space) are inputs. */
module HealthChecker {
  import opened Wrappers
  import opened Text

  const MinSdk: int := 26
  const GiB: int := 1024 * 1024 * 1024
  /** `4 * 1024 * 1024 * 1024L`. */
  const RecommendedRam: int := 4 * GiB
  /** `10 * 1024 * 1024 * 1024L`. */
  const RecommendedStorage: int := 10 * GiB
  /** Smaller model files are taken to be corrupted. */
  const MinModelBytes: int := 1024

  const RequiredModels: seq<string> :=
    ["whisper_tiny_int8.onnx", "nllb_600m_int8.onnx", "qwen2.5_1.8b_int8.onnx", "wavlm_base_plus.onnx"]
  const JniLibraries: seq<string> := ["sentencepiece_jni", "whisper_tokenizer_jni", "qwen_tokenizer_jni"]

  datatype FileState = Missing | Present(length: int)

  /** What the platform reports. */
  datatype DeviceFacts = DeviceFacts(
    sdkInt: int,
    model: string,
    maxMemory: int,
    abis: seq<string>,
    modelFiles: string -> FileState,
    libraryLoads: string -> bool,
    freeSpace: int)

  datatype DeviceInfo = DeviceInfo(model: string, androidVersion: int, availableRAM: int, supportedABIs: seq<string>)

  datatype HealthStatus = HealthStatus(isHealthy: bool, errors: seq<string>, warnings: seq<string>, deviceInfo: DeviceInfo)

  // ---------------------------------------------------------------------------
  // Messages

  function SdkError(sdk: int): string
  {
    "Android API level too low " + "(minimum: 26, current: " + IntString(sdk) + ")"
  }

  function RamWarning(ram: int): string
  {
    "Low RAM detected: " + IntString(TruncDiv(ram, GiB)) + "GB (recommended: 4GB+)"
  }

  /** `List.toString()`: the elements in brackets, separated by ", ". */
  function ListString(xs: seq<string>): string
  {
    "[" + Join(", ", xs) + "]"
  }

  function AbiError(abis: seq<string>): string
  {
    "No supported ABI found. Supported: " + ListString(abis)
  }

  function MissingModel(name: string): string
  {
    "Model file missing: " + name
  }

  function CorruptModel(name: string, length: int): string
  {
    "Model file corrupted: " + name + " (size: " + IntString(length) + " bytes)"
  }

  function MissingLibrary(lib: string): string
  {
    "JNI library not found: " + lib
  }

  function StorageWarning(free: int): string
  {
    "Low storage space: " + IntString(TruncDiv(free, GiB)) + "GB free"
  }

  // ---------------------------------------------------------------------------
  // Classification

  predicate SupportedAbi(abis: seq<string>)
  {
    "arm64-v8a" in abis || "armeabi-v7a" in abis
  }

  predicate Corrupt(f: DeviceFacts, name: string)
  {
    f.modelFiles(name).Present? && f.modelFiles(name).length < MinModelBytes
  }

  /** Errors from the model-file loop over `names`. */
  function ModelErrors(f: DeviceFacts, names: seq<string>): (errs: seq<string>)
    ensures |errs| <= |names|
  {
    if names == [] then []
    else
      var name := names[|names| - 1];
      ModelErrors(f, names[..|names| - 1]) +
      if Corrupt(f, name) then [CorruptModel(name, f.modelFiles(name).length)] else []
  }

  /** Warnings from the model-file loop over `names`. */
  function ModelWarnings(f: DeviceFacts, names: seq<string>): (warns: seq<string>)
    ensures |warns| <= |names|
  {
    if names == [] then []
    else
      var name := names[|names| - 1];
      ModelWarnings(f, names[..|names| - 1]) +
      if f.modelFiles(name).Missing? then [MissingModel(name)] else []
  }

  /** Warnings from the library loop over `libs`. */
  function LibraryWarnings(f: DeviceFacts, libs: seq<string>): (warns: seq<string>)
    ensures |warns| <= |libs|
  {
    if libs == [] then []
    else
      var lib := libs[|libs| - 1];
      LibraryWarnings(f, libs[..|libs| - 1]) + if f.libraryLoads(lib) then [] else [MissingLibrary(lib)]
  }

  /** The errors, in the order the checks run: API level, ABI, then the
      files among `models`. */
  function ErrorsFor(f: DeviceFacts, models: seq<string>): seq<string>
  {
    (if f.sdkInt < MinSdk then [SdkError(f.sdkInt)] else []) +
    (if !SupportedAbi(f.abis) then [AbiError(f.abis)] else []) +
    ModelErrors(f, models)
  }

  /** The warnings, in order: memory, the files among `models`, the
      libraries among `libs`, storage. */
  function WarningsFor(f: DeviceFacts, models: seq<string>, libs: seq<string>): seq<string>
  {
    (if f.maxMemory < RecommendedRam then [RamWarning(f.maxMemory)] else []) +
    ModelWarnings(f, models) +
    LibraryWarnings(f, libs) +
    (if f.freeSpace < RecommendedStorage then [StorageWarning(f.freeSpace)] else [])
  }

  function Errors(f: DeviceFacts): seq<string>
  {
    ErrorsFor(f, RequiredModels)
  }

  function Warnings(f: DeviceFacts): seq<string>
  {
    WarningsFor(f, RequiredModels, JniLibraries)
  }

  /** `checkSystemHealth`: healthy exactly when there are no errors. */
  function Status(f: DeviceFacts): (s: HealthStatus)
    ensures s.isHealthy <==> s.errors == []
    ensures s.errors == Errors(f) && s.warnings == Warnings(f)
    ensures s.deviceInfo == DeviceInfo(f.model, f.sdkInt, f.maxMemory, f.abis)
  {
    var errs := Errors(f);
    HealthStatus(errs == [], errs, Warnings(f), DeviceInfo(f.model, f.sdkInt, f.maxMemory, f.abis))
  }

  /** The model-file loop, appending to the two lists. */
  method CheckModelFiles(f: DeviceFacts, errors0: seq<string>, warnings0: seq<string>)
    returns (errors: seq<string>, warnings: seq<string>)
    ensures errors == errors0 + ModelErrors(f, RequiredModels)
    ensures warnings == warnings0 + ModelWarnings(f, RequiredModels)
  {
    errors, warnings := CheckModelFilesIn(f, RequiredModels, errors0, warnings0);
  }

  /** The model-file loop over any list of file names. */
  method CheckModelFilesIn(f: DeviceFacts, names: seq<string>, errors0: seq<string>, warnings0: seq<string>)
    returns (errors: seq<string>, warnings: seq<string>)
    ensures errors == errors0 + ModelErrors(f, names)
    ensures warnings == warnings0 + ModelWarnings(f, names)
  {
    errors, warnings := errors0, warnings0;
    for i := 0 to |names|
      invariant errors == errors0 + ModelErrors(f, names[..i])
      invariant warnings == warnings0 + ModelWarnings(f, names[..i])
    {
      var name := names[i];
      assert names[..i + 1][..i] == names[..i];
      match f.modelFiles(name)
      case Missing =>
        warnings := warnings + [MissingModel(name)];
      case Present(length) =>
        if length < MinModelBytes {
          errors := errors + [CorruptModel(name, length)];
        }
    }
    assert names[..|names|] == names;
  }

  /** The library loop. */
  method CheckLibraries(f: DeviceFacts, warnings0: seq<string>) returns (warnings: seq<string>)
    ensures warnings == warnings0 + LibraryWarnings(f, JniLibraries)
  {
    warnings := CheckLibrariesIn(f, JniLibraries, warnings0);
  }

  /** The library loop over any list of library names. */
  method CheckLibrariesIn(f: DeviceFacts, libs: seq<string>, warnings0: seq<string>) returns (warnings: seq<string>)
    ensures warnings == warnings0 + LibraryWarnings(f, libs)
  {
    warnings := warnings0;
    for i := 0 to |libs|
      invariant warnings == warnings0 + LibraryWarnings(f, libs[..i])
    {
      var lib := libs[i];
      assert libs[..i + 1][..i] == libs[..i];
      if !f.libraryLoads(lib) {
        warnings := warnings + [MissingLibrary(lib)];
      }
    }
    assert libs[..|libs|] == libs;
  }

  /** The checks before the model-file loop: API level, memory, ABIs. */
  method CheckDevice(f: DeviceFacts) returns (errors: seq<string>, warnings: seq<string>)
    ensures errors == (if f.sdkInt < MinSdk then [SdkError(f.sdkInt)] else []) +
                      (if !SupportedAbi(f.abis) then [AbiError(f.abis)] else [])
    ensures warnings == if f.maxMemory < RecommendedRam then [RamWarning(f.maxMemory)] else []
  {
    errors, warnings := [], [];
    if f.sdkInt < MinSdk {
      errors := errors + [SdkError(f.sdkInt)];
    }
    var availableRam := f.maxMemory;
    if availableRam < RecommendedRam {
      warnings := warnings + [RamWarning(availableRam)];
    }
    if !("arm64-v8a" in f.abis) && !("armeabi-v7a" in f.abis) {
      errors := errors + [AbiError(f.abis)];
    }
  }

  method CheckSystemHealth(f: DeviceFacts) returns (status: HealthStatus)
    ensures status == Status(f)
  {
    var errors, warnings := CheckDevice(f);
    ghost var errors0, warnings0 := errors, warnings;
    ghost var modelErrors, modelWarnings := ModelErrors(f, RequiredModels), ModelWarnings(f, RequiredModels);
    ghost var libraryWarnings := LibraryWarnings(f, JniLibraries);
    errors, warnings := CheckModelFiles(f, errors, warnings);
    warnings := CheckLibraries(f, warnings);
    assert warnings == warnings0 + modelWarnings + libraryWarnings;
    ghost var storage := if f.freeSpace < RecommendedStorage then [StorageWarning(f.freeSpace)] else [];
    if f.freeSpace < RecommendedStorage {
      warnings := warnings + [StorageWarning(f.freeSpace)];
    }
    assert warnings == warnings0 + modelWarnings + libraryWarnings + storage;
    assert errors == errors0 + modelErrors;
    status := HealthStatus(errors == [], errors, warnings, DeviceInfo(f.model, f.sdkInt, f.maxMemory, f.abis));
  }

  // ---------------------------------------------------------------------------
  // Properties of the classification

  lemma {:induction false} ModelErrorsEmpty(f: DeviceFacts, names: seq<string>)
    ensures ModelErrors(f, names) == [] <==> forall i :: 0 <= i < |names| ==> !Corrupt(f, names[i])
  {
    if names != [] {
      var n := |names| - 1;
      ModelErrorsEmpty(f, names[..n]);
      assert forall i :: 0 <= i < n ==> names[..n][i] == names[i];
    }
  }

  /** The device is healthy exactly when the API level is at least 26, one of
      the two ARM ABIs is supported and no required model file is present
      but shorter than 1024 bytes. Memory, storage, missing models and
      missing libraries never make it unhealthy. */
  lemma HealthyIff(f: DeviceFacts)
    ensures Status(f).isHealthy <==>
              f.sdkInt >= MinSdk && SupportedAbi(f.abis) &&
              forall i :: 0 <= i < |RequiredModels| ==> !Corrupt(f, RequiredModels[i])
  {
    ModelErrorsEmpty(f, RequiredModels);
  }

  /** Two messages with the same fixed prefix name the same thing. */
  lemma MessageSuffix(prefix: string, a: string, b: string)
    requires prefix + a == prefix + b
    ensures a == b
  {
    assert a == (prefix + a)[|prefix|..];
    assert b == (prefix + b)[|prefix|..];
  }

  lemma {:induction false} ModelWarningsListed(f: DeviceFacts, names: seq<string>, name: string)
    ensures MissingModel(name) in ModelWarnings(f, names) <==> name in names && f.modelFiles(name).Missing?
  {
    if names != [] {
      var n := |names| - 1;
      ModelWarningsListed(f, names[..n], name);
      if MissingModel(name) == MissingModel(names[n]) {
        MessageSuffix("Model file missing: ", name, names[n]);
      }
      assert names == names[..n] + [names[n]];
    }
  }

  lemma {:induction false} LibraryWarningsListed(f: DeviceFacts, libs: seq<string>, lib: string)
    ensures MissingLibrary(lib) in LibraryWarnings(f, libs) <==> lib in libs && !f.libraryLoads(lib)
  {
    if libs != [] {
      var n := |libs| - 1;
      LibraryWarningsListed(f, libs[..n], lib);
      if MissingLibrary(lib) == MissingLibrary(libs[n]) {
        MessageSuffix("JNI library not found: ", lib, libs[n]);
      }
      assert libs == libs[..n] + [libs[n]];
    }
  }

  /** Names that differ already differ in their first two characters. */
  predicate DistinctHeads(names: seq<string>)
  {
    (forall i :: 0 <= i < |names| ==> |names[i]| >= 2) &&
    forall i, j :: 0 <= i < |names| && 0 <= j < |names| && names[i] != names[j] ==>
      names[i][0] != names[j][0] || names[i][1] != names[j][1]
  }

  lemma RequiredModelsDistinct()
    ensures DistinctHeads(RequiredModels)
  {
  }

  /** The corruption messages of two names with distinct heads differ. */
  lemma CorruptNamesDiffer(a: string, b: string, la: int, lb: int)
    requires |a| >= 2 && |b| >= 2 && (a[0] != b[0] || a[1] != b[1])
    ensures CorruptModel(a, la) != CorruptModel(b, lb)
  {
    var p := "Model file corrupted: ";
    assert CorruptModel(a, la)[|p|] == a[0] && CorruptModel(a, la)[|p| + 1] == a[1];
    assert CorruptModel(b, lb)[|p|] == b[0] && CorruptModel(b, lb)[|p| + 1] == b[1];
  }

  lemma {:induction false} ModelErrorsListed(f: DeviceFacts, universe: seq<string>, names: seq<string>, name: string)
    requires DistinctHeads(universe) && name in universe
    requires forall i :: 0 <= i < |names| ==> names[i] in universe
    ensures (exists len :: CorruptModel(name, len) in ModelErrors(f, names)) <==> name in names && Corrupt(f, name)
  {
    if names != [] {
      var n := |names| - 1;
      ModelErrorsListed(f, universe, names[..n], name);
      assert names == names[..n] + [names[n]];
      if Corrupt(f, name) && name == names[n] {
        assert CorruptModel(name, f.modelFiles(name).length) in ModelErrors(f, names);
      }
      forall len | CorruptModel(name, len) in ModelErrors(f, names)
        ensures name in names && Corrupt(f, name)
      {
        if CorruptModel(name, len) !in ModelErrors(f, names[..n]) && name != names[n] {
          CorruptNamesDiffer(name, names[n], len, f.modelFiles(names[n]).length);
        }
      }
    }
  }

  lemma {:induction false} ModelWarningsShape(f: DeviceFacts, names: seq<string>, w: string)
    requires w in ModelWarnings(f, names)
    ensures |w| > 0 && w[0] == 'M'
  {
    var n := |names| - 1;
    if w in ModelWarnings(f, names[..n]) {
      ModelWarningsShape(f, names[..n], w);
    }
  }

  lemma {:induction false} LibraryWarningsShape(f: DeviceFacts, libs: seq<string>, w: string)
    requires w in LibraryWarnings(f, libs)
    ensures |w| > 0 && w[0] == 'J'
  {
    var n := |libs| - 1;
    if w in LibraryWarnings(f, libs[..n]) {
      LibraryWarningsShape(f, libs[..n], w);
    }
  }

  /** Each listed model file contributes according to its state: a
      "missing" warning exactly when it is absent. */
  lemma ModelWarningFound(f: DeviceFacts, models: seq<string>, libs: seq<string>, name: string)
    ensures MissingModel(name) in WarningsFor(f, models, libs) <==> name in models && f.modelFiles(name).Missing?
  {
    ModelWarningsListed(f, models, name);
    var m := MissingModel(name);
    assert m[0] == 'M';
    assert RamWarning(f.maxMemory)[0] == 'L' && StorageWarning(f.freeSpace)[0] == 'L';
    if m in LibraryWarnings(f, libs) {
      LibraryWarningsShape(f, libs, m);
    }
  }

  /** ... and a "corrupted" error exactly when it is present but shorter
      than 1024 bytes. */
  lemma CorruptErrorFound(f: DeviceFacts, models: seq<string>, name: string)
    requires DistinctHeads(models) && name in models
    ensures (exists len :: CorruptModel(name, len) in ErrorsFor(f, models)) <==> Corrupt(f, name)
  {
    ModelErrorsListed(f, models, models, name);
    assert SdkError(f.sdkInt)[0] == 'A' && AbiError(f.abis)[0] == 'N';
    forall len | CorruptModel(name, len) in ErrorsFor(f, models)
      ensures CorruptModel(name, len) in ModelErrors(f, models)
    {
      assert CorruptModel(name, len)[0] == 'M';
    }
  }

  /** Each listed library that fails to load adds its own warning, and no
      other library's. */
  lemma LibraryWarningFound(f: DeviceFacts, models: seq<string>, libs: seq<string>, lib: string)
    ensures MissingLibrary(lib) in WarningsFor(f, models, libs) <==> lib in libs && !f.libraryLoads(lib)
  {
    LibraryWarningsListed(f, libs, lib);
    var m := MissingLibrary(lib);
    assert m[0] == 'J';
    assert RamWarning(f.maxMemory)[0] == 'L' && StorageWarning(f.freeSpace)[0] == 'L';
    if m in ModelWarnings(f, models) {
      ModelWarningsShape(f, models, m);
    }
  }

  /** For the four required model files and the three JNI libraries. */
  lemma ModelAndLibraryFindings(f: DeviceFacts, name: string, lib: string)
    requires name in RequiredModels && lib in JniLibraries
    ensures MissingModel(name) in Status(f).warnings <==> f.modelFiles(name).Missing?
    ensures (exists len :: CorruptModel(name, len) in Status(f).errors) <==> Corrupt(f, name)
    ensures MissingLibrary(lib) in Status(f).warnings <==> !f.libraryLoads(lib)
  {
    ModelWarningFound(f, RequiredModels, JniLibraries, name);
    RequiredModelsDistinct();
    CorruptErrorFound(f, RequiredModels, name);
    LibraryWarningFound(f, RequiredModels, JniLibraries, lib);
  }

  lemma ThresholdHeads(ram: int, free: int)
    ensures |RamWarning(ram)| > 4 && RamWarning(ram)[0] == 'L' && RamWarning(ram)[4] == 'R'
    ensures |StorageWarning(free)| > 4 && StorageWarning(free)[0] == 'L' && StorageWarning(free)[4] == 's'
  {
  }

  /** The model and library warnings start with 'M' or 'J'. */
  lemma MiddleWarningsShape(f: DeviceFacts, models: seq<string>, libs: seq<string>, x: string)
    requires x in ModelWarnings(f, models) + LibraryWarnings(f, libs)
    ensures |x| > 0 && (x[0] == 'M' || x[0] == 'J')
  {
    if x in ModelWarnings(f, models) {
      ModelWarningsShape(f, models, x);
    } else {
      LibraryWarningsShape(f, libs, x);
    }
  }

  /** Proof helper: unfolds WarningsFor into its four groups (memory, files, libraries, storage). */
  lemma WarningsParts(f: DeviceFacts, models: seq<string>, libs: seq<string>)
    ensures WarningsFor(f, models, libs) ==
            (if f.maxMemory < RecommendedRam then [RamWarning(f.maxMemory)] else []) +
            (ModelWarnings(f, models) + LibraryWarnings(f, libs)) +
            (if f.freeSpace < RecommendedStorage then [StorageWarning(f.freeSpace)] else [])
  {
    Regroup(if f.maxMemory < RecommendedRam then [RamWarning(f.maxMemory)] else [],
            ModelWarnings(f, models), LibraryWarnings(f, libs),
            if f.freeSpace < RecommendedStorage then [StorageWarning(f.freeSpace)] else []);
  }

  lemma Regroup(a: seq<string>, b: seq<string>, c: seq<string>, d: seq<string>)
    ensures a + b + c + d == a + (b + c) + d
  {
  }

  /** No model or library warning starts with 'L'. */
  lemma MiddleWarningsNotL(f: DeviceFacts, models: seq<string>, libs: seq<string>)
    ensures forall x :: x in ModelWarnings(f, models) + LibraryWarnings(f, libs) ==> |x| > 0 && x[0] != 'L'
  {
    forall x | x in ModelWarnings(f, models) + LibraryWarnings(f, libs)
      ensures |x| > 0 && x[0] != 'L'
    {
      MiddleWarningsShape(f, models, libs, x);
    }
  }

  /** Of the three groups memory (`rw` when `c`), `mid` and storage (`sw`
      when `d`), where nothing but `rw` looks like `rw`, the whole starts
      with `rw` exactly when `c`. */
  lemma FirstOfGroups(c: bool, mid: seq<string>, d: bool, rw: string, sw: string)
    requires |rw| > 4 && rw[0] == 'L' && rw[4] == 'R'
    requires |sw| > 4 && sw[0] == 'L' && sw[4] == 's'
    requires forall x :: x in mid ==> |x| > 0 && x[0] != 'L'
    ensures var w := (if c then [rw] else []) + mid + (if d then [sw] else []);
            c <==> |w| > 0 && w[0] == rw
  {
    var w := (if c then [rw] else []) + mid + (if d then [sw] else []);
    if !c && w != [] {
      if mid != [] {
        assert w[0] == mid[0] && mid[0] in mid;
      } else {
        assert w[0] == sw;
      }
    }
  }

  /** The same three groups end with `sw` exactly when `d`. */
  lemma LastOfGroups(c: bool, mid: seq<string>, d: bool, rw: string, sw: string)
    requires |rw| > 4 && rw[0] == 'L' && rw[4] == 'R'
    requires |sw| > 4 && sw[0] == 'L' && sw[4] == 's'
    requires forall x :: x in mid ==> |x| > 0 && x[0] != 'L'
    ensures var w := (if c then [rw] else []) + mid + (if d then [sw] else []);
            d <==> |w| > 0 && w[|w| - 1] == sw
  {
    var w := (if c then [rw] else []) + mid + (if d then [sw] else []);
    if !d && w != [] {
      if mid != [] {
        assert w[|w| - 1] == mid[|mid| - 1] && mid[|mid| - 1] in mid;
      } else {
        assert w[|w| - 1] == rw;
      }
    }
  }

  /** The memory warning comes first, exactly when the heap is below 4 GiB. */
  lemma RamWarningFirst(f: DeviceFacts, models: seq<string>, libs: seq<string>)
    ensures var w := WarningsFor(f, models, libs);
            f.maxMemory < RecommendedRam <==> |w| > 0 && w[0] == RamWarning(f.maxMemory)
  {
    WarningsParts(f, models, libs);
    MiddleWarningsNotL(f, models, libs);
    ThresholdHeads(f.maxMemory, f.freeSpace);
    FirstOfGroups(f.maxMemory < RecommendedRam, ModelWarnings(f, models) + LibraryWarnings(f, libs),
                  f.freeSpace < RecommendedStorage, RamWarning(f.maxMemory), StorageWarning(f.freeSpace));
  }

  /** The storage warning comes last, exactly when less than 10 GiB is free. */
  lemma StorageWarningLast(f: DeviceFacts, models: seq<string>, libs: seq<string>)
    ensures var w := WarningsFor(f, models, libs);
            f.freeSpace < RecommendedStorage <==> |w| > 0 && w[|w| - 1] == StorageWarning(f.freeSpace)
  {
    WarningsParts(f, models, libs);
    MiddleWarningsNotL(f, models, libs);
    ThresholdHeads(f.maxMemory, f.freeSpace);
    LastOfGroups(f.maxMemory < RecommendedRam, ModelWarnings(f, models) + LibraryWarnings(f, libs),
                 f.freeSpace < RecommendedStorage, RamWarning(f.maxMemory), StorageWarning(f.freeSpace));
  }

  // ---------------------------------------------------------------------------
  // Report

  const Title: string := "=== MeetingTranscriber Health Check ==="

  function StatusLine(healthy: bool): string
  {
    "Status: " + if healthy then "✅ HEALTHY" else "❌ UNHEALTHY"
  }

  function ClosingLine(healthy: bool): string
  {
    if healthy then "✅ All systems ready!" else "❌ Please resolve errors " + "before using the app."
  }

  /** One list entry of the report. */
  function Bullet(item: string): string
  {
    "  - " + item
  }

  function Bullets(items: seq<string>): (lines: seq<string>)
    ensures |lines| == |items|
  {
    seq(|items|, i requires 0 <= i < |items| => Bullet(items[i]))
  }

  /** A titled list followed by a blank line, or nothing for no items. */
  function Section(title: string, items: seq<string>): (lines: seq<string>)
    ensures |lines| == if items == [] then 0 else |items| + 2
  {
    if items == [] then [] else [title] + Bullets(items) + [""]
  }

  function DeviceLines(d: DeviceInfo): seq<string>
  {
    ["Device Info:",
     "  Model: " + d.model,
     "  Android: API " + IntString(d.androidVersion),
     "  RAM: " + IntString(TruncDiv(d.availableRAM, GiB)) + "GB",
     "  ABIs: " + Join(", ", d.supportedABIs),
     ""]
  }

  /** The report, line by line. */
  function ReportLines(s: HealthStatus): seq<string>
  {
    [Title, StatusLine(s.isHealthy), ""] + DeviceLines(s.deviceInfo) +
    Section("❌ Errors:", s.errors) + Section("⚠️ Warnings:", s.warnings) +
    [ClosingLine(s.isHealthy)]
  }

  /** `appendLine` after each line. */
  function Unlines(lines: seq<string>): string
  {
    if lines == [] then "" else Unlines(lines[..|lines| - 1]) + lines[|lines| - 1] + "\n"
  }

  lemma UnlinesAppend(a: seq<string>, b: seq<string>)
    ensures Unlines(a + b) == Unlines(a) + Unlines(b)
    decreases |b|
  {
    if b != [] {
      var n := |b| - 1;
      assert (a + b)[..|a + b| - 1] == a + b[..n];
      UnlinesAppend(a, b[..n]);
    } else {
      assert a + b == a;
    }
  }

  /** The report's shape: title and status first, then the device block,
      then each non-empty list as a titled section with one bullet per
      entry in order, and the closing line last. */
  lemma ReportShape(s: HealthStatus)
    ensures var lines := ReportLines(s);
            var e := |s.errors|;
            var errorLines := if e == 0 then 0 else e + 2;
            |lines| == 10 + errorLines + (if s.warnings == [] then 0 else |s.warnings| + 2) &&
            lines[0] == Title && lines[1] == StatusLine(s.isHealthy) &&
            lines[|lines| - 1] == ClosingLine(s.isHealthy) &&
            (e > 0 ==> lines[9] == "❌ Errors:" && forall i :: 0 <= i < e ==> lines[10 + i] == Bullet(s.errors[i])) &&
            (s.warnings != [] ==>
               lines[9 + errorLines] == "⚠️ Warnings:" &&
               forall i :: 0 <= i < |s.warnings| ==> lines[10 + errorLines + i] == Bullet(s.warnings[i]))
  {
    var head := [Title, StatusLine(s.isHealthy), ""] + DeviceLines(s.deviceInfo);
    var es := Section("❌ Errors:", s.errors);
    var ws := Section("⚠️ Warnings:", s.warnings);
    ReportParts(s);
    ReportLayout(head, Title, StatusLine(s.isHealthy), "❌ Errors:", s.errors, "⚠️ Warnings:", s.warnings,
                 ClosingLine(s.isHealthy));
  }

  /** The report's shape for any nine-line head, section titles and last line. */
  lemma ReportLayout(head: seq<string>, title: string, status: string, et: string, errs: seq<string>,
                     wt: string, warns: seq<string>, last: string)
    requires |head| == 9 && head[0] == title && head[1] == status
    ensures var lines := head + Section(et, errs) + Section(wt, warns) + [last];
            var e := |errs|;
            var errorLines := if e == 0 then 0 else e + 2;
            |lines| == 10 + errorLines + (if warns == [] then 0 else |warns| + 2) &&
            lines[0] == title && lines[1] == status && lines[|lines| - 1] == last &&
            (e > 0 ==> lines[9] == et && forall i :: 0 <= i < e ==> lines[10 + i] == Bullet(errs[i])) &&
            (warns != [] ==>
               lines[9 + errorLines] == wt &&
               forall i :: 0 <= i < |warns| ==> lines[10 + errorLines + i] == Bullet(warns[i]))
  {
    var es := Section(et, errs);
    var ws := Section(wt, warns);
    HeadLayout(head, title, status, es, ws, last);
    ErrorsLayout(head, et, errs, ws, last);
    WarningsLayout(head, es, wt, warns, last);
  }

  /** Proof helper: unfolds ReportLines into the nine-line head, the two sections and the closing line. */
  lemma ReportParts(s: HealthStatus)
    ensures var head := [Title, StatusLine(s.isHealthy), ""] + DeviceLines(s.deviceInfo);
            |head| == 9 && head[0] == Title && head[1] == StatusLine(s.isHealthy) &&
            ReportLines(s) == head + Section("❌ Errors:", s.errors) + Section("⚠️ Warnings:", s.warnings) +
                              [ClosingLine(s.isHealthy)]
  {
  }

  /** The first two lines and the last line of a report, and its length. */
  lemma HeadLayout(head: seq<string>, title: string, status: string, es: seq<string>, ws: seq<string>, last: string)
    requires |head| == 9 && head[0] == title && head[1] == status
    ensures var lines := head + es + ws + [last];
            |lines| == 10 + |es| + |ws| && lines[0] == title && lines[1] == status && lines[|lines| - 1] == last
  {
  }

  /** A non-empty errors section starts right after the nine-line head:
      its title, then one bullet per error in order. */
  lemma ErrorsLayout(head: seq<string>, et: string, errs: seq<string>, ws: seq<string>, last: string)
    requires |head| == 9
    ensures var lines := head + Section(et, errs) + ws + [last];
            errs != [] ==> lines[9] == et && forall i :: 0 <= i < |errs| ==> lines[10 + i] == Bullet(errs[i])
  {
    var es := Section(et, errs);
    if errs != [] {
      SectionAt(et, errs, 0);
      PartAt(head, es, ws, last, 0);
      forall i | 0 <= i < |errs|
        ensures (head + es + ws + [last])[10 + i] == Bullet(errs[i])
      {
        SectionAt(et, errs, i);
        PartAt(head, es, ws, last, 1 + i);
      }
    }
  }

  /** A non-empty warnings section starts right after the head and the
      errors section: its title, then one bullet per warning in order. */
  lemma WarningsLayout(head: seq<string>, es: seq<string>, wt: string, warns: seq<string>, last: string)
    requires |head| == 9
    ensures var lines := head + es + Section(wt, warns) + [last];
            warns != [] ==>
              lines[9 + |es|] == wt &&
              forall i :: 0 <= i < |warns| ==> lines[10 + |es| + i] == Bullet(warns[i])
  {
    var ws := Section(wt, warns);
    if warns != [] {
      SectionAt(wt, warns, 0);
      PartAt(head, es, ws, last, |es|);
      forall i | 0 <= i < |warns|
        ensures (head + es + ws + [last])[10 + |es| + i] == Bullet(warns[i])
      {
        SectionAt(wt, warns, i);
        PartAt(head, es, ws, last, |es| + 1 + i);
      }
    }
  }

  /** Line `|head| + k` of a report lies in the sections that follow the head. */
  lemma PartAt(head: seq<string>, es: seq<string>, ws: seq<string>, last: string, k: nat)
    requires k < |es| + |ws|
    ensures (head + es + ws + [last])[|head| + k] == if k < |es| then es[k] else ws[k - |es|]
  {
  }

  /** Line `1 + i` of a section is the bullet of item `i`, after its title. */
  lemma SectionAt(title: string, items: seq<string>, i: nat)
    requires i < |items|
    ensures Section(title, items)[0] == title && Section(title, items)[1 + i] == Bullet(items[i])
  {
  }

  /** For a status from the check, the report says UNHEALTHY exactly when
      it lists errors. */
  lemma ReportOfCheck(f: DeviceFacts)
    ensures var lines := ReportLines(Status(f));
            lines[1] == StatusLine(false) <==> lines[9] == "❌ Errors:"
  {
    var s := Status(f);
    ReportShape(s);
    assert StatusLine(true) != StatusLine(false) by {
      assert StatusLine(true)[8] != StatusLine(false)[8];
    }
    if s.errors == [] && s.warnings != [] {
      assert ReportLines(s)[9] == "⚠️ Warnings:";
      assert "⚠️ Warnings:"[0] != "❌ Errors:"[0];
    }
    if s.errors == [] && s.warnings == [] {
      assert ReportLines(s)[9] == ClosingLine(true);
    }
  }

  /** `appendLine` for each of `lines`, onto a builder that already holds
      the lines `done`. */
  method AppendLines(sb: string, ghost done: seq<string>, lines: seq<string>) returns (r: string)
    requires sb == Unlines(done)
    ensures r == Unlines(done + lines)
  {
    r := sb;
    assert done + lines[..0] == done;
    for i := 0 to |lines|
      invariant r == Unlines(done + lines[..i])
    {
      ghost var before := done + lines[..i];
      assert done + lines[..i + 1] == before + [lines[i]];
      assert (before + [lines[i]])[..|before|] == before;
      r := r + lines[i] + "\n";
    }
    assert lines[..|lines|] == lines;
  }

  /** `generateHealthReport`, appending to a string builder. */
  method GenerateHealthReport(s: HealthStatus) returns (report: string)
    ensures report == Unlines(ReportLines(s))
  {
    ghost var done: seq<string> := [];
    var head := [Title, StatusLine(s.isHealthy), ""] + DeviceLines(s.deviceInfo);
    report := AppendLines("", done, head);
    assert done + head == head;
    done := head;
    if s.errors != [] {
      report := AppendLines(report, done, ["❌ Errors:"] + Bullets(s.errors) + [""]);
      done := done + (["❌ Errors:"] + Bullets(s.errors) + [""]);
    }
    assert done == head + Section("❌ Errors:", s.errors);
    if s.warnings != [] {
      report := AppendLines(report, done, ["⚠️ Warnings:"] + Bullets(s.warnings) + [""]);
      done := done + (["⚠️ Warnings:"] + Bullets(s.warnings) + [""]);
    }
    assert done == head + Section("❌ Errors:", s.errors) + Section("⚠️ Warnings:", s.warnings);
    report := AppendLines(report, done, [ClosingLine(s.isHealthy)]);
  }
}
