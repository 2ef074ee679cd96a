/** `OptimizedModelManager`: a single slot for the one inference session that
    may be resident, a keep-alive lease (the Android wake lock) held while
    models are in use, and memory telemetry.

    Sessions and leases are abstract handles with a flag saying whether they
    are still open or held; the inference runtime behind them is not modelled.
    Whether the runtime accepts a model file is an input of `LoadModel`. */
module ModelLifecycle {
  import opened Wrappers

  datatype ModelType = WHISPER | NLLB | QWEN | WAVLM

  /** The file each model is read from, inside the app's `models` directory. */
  function ModelFileName(t: ModelType): string
  {
    match t
    case WHISPER => "whisper_tiny_int8.onnx"
    case NLLB => "nllb_600m_int8.onnx"
    case QWEN => "qwen2.5_1.8b_int8.onnx"
    case WAVLM => "wavlm_base_plus.onnx"
  }

  /** `File(File(filesDir, "models"), name).absolutePath`. */
  function ModelPath(filesDir: string, t: ModelType): (path: string)
    ensures |path| > |filesDir| + |"/models/"|
    ensures path[..|filesDir|] == filesDir && path[|filesDir|..|filesDir| + 8] == "/models/"
  {
    filesDir + "/models/" + ModelFileName(t)
  }

  /** Every model type has its own file, so its own path. */
  lemma ModelPathsDistinct(filesDir: string, t: ModelType, u: ModelType)
    requires t != u
    ensures ModelFileName(t) != ModelFileName(u)
    ensures ModelPath(filesDir, t) != ModelPath(filesDir, u)
  {
    var a, b := ModelFileName(t), ModelFileName(u);
    assert a[0] != b[0] || a[1] != b[1];
    var p, q := ModelPath(filesDir, t), ModelPath(filesDir, u);
    var k := |filesDir| + 8;
    assert p[k..] == a && q[k..] == b;
  }

  /** The lease is capped at ten minutes. */
  const WakeLockTimeoutMs: int := 10 * 60 * 1000
  const WakeLockTag: string := "MeetingTranscriber::ModelInference"

  /** An inference session handle: open from creation until closed. */
  class Session {
    var open: bool
    const modelType: ModelType
    const path: string

    constructor (modelType: ModelType, path: string)
      ensures open && this.modelType == modelType && this.path == path
    {
      this.modelType := modelType;
      this.path := path;
      open := true;
    }

    method Close()
      modifies this
      ensures !open
    {
      open := false;
    }
  }

  /** A keep-alive lease: `newWakeLock` creates it released, `acquire` holds it
      for at most `timeoutMs`. */
  class WakeLock {
    var held: bool
    var timeoutMs: int
    const tag: string

    constructor (tag: string)
      ensures !held && this.tag == tag
    {
      this.tag := tag;
      held := false;
      timeoutMs := 0;
    }

    method Acquire(timeoutMs: int)
      modifies this
      ensures held && this.timeoutMs == timeoutMs
    {
      held := true;
      this.timeoutMs := timeoutMs;
    }

    method Release()
      modifies this
      ensures !held && timeoutMs == old(timeoutMs)
    {
      held := false;
    }
  }

  /** State of the lazily initialised `ortEnvironment`. */
  datatype EnvState = Uninitialized | Open | Closed

  class OptimizedModelManager {
    const filesDir: string
    var env: EnvState
    var currentSession: Session?
    var currentModelType: Option<ModelType>
    var wakeLock: WakeLock?
    /** Every session and every lease this manager has created. */
    ghost var sessions: set<Session>
    ghost var leases: set<WakeLock>

    /** At most one session is open, and it is the resident one; the resident
        type is recorded exactly when a session is resident; at most one lease
        is held, and it is the recorded one. */
    ghost predicate Valid()
      reads this, sessions, leases
    {
      (currentSession == null <==> currentModelType == None) &&
      (currentSession != null ==>
         currentSession in sessions && currentSession.open &&
         currentModelType == Some(currentSession.modelType)) &&
      (forall s :: s in sessions && s.open ==> s == currentSession) &&
      (wakeLock != null ==> wakeLock in leases && wakeLock.held) &&
      (forall l :: l in leases && l.held ==> l == wakeLock)
    }

    /** The sessions that are open right now. */
    ghost function OpenSessions(): set<Session>
      reads this, sessions
    {
      set s | s in sessions && s.open
    }

    constructor (filesDir: string)
      ensures Valid() && this.filesDir == filesDir && env == Uninitialized
      ensures currentSession == null && currentModelType == None && wakeLock == null
      ensures sessions == {} && leases == {}
    {
      this.filesDir := filesDir;
      env := Uninitialized;
      currentSession := null;
      currentModelType := None;
      wakeLock := null;
      sessions := {};
      leases := {};
    }

    /** `initializeEnvironment`: obtains the runtime environment. */
    method InitializeEnvironment()
      requires Valid()
      modifies this`env
      ensures Valid() && env == Open
    {
      env := Open;
    }

    /** `releaseCurrentModel`: closes the resident session, if any, and clears
        the slot; with nothing loaded it changes nothing, so a second call is
        a no-op. */
    method ReleaseCurrentModel()
      requires Valid()
      modifies this`currentSession, this`currentModelType, sessions
      ensures Valid()
      ensures currentSession == null && currentModelType == None
      ensures old(currentSession) != null ==> !old(currentSession).open
      ensures forall s :: s in sessions && s != old(currentSession) ==> s.open == old(s.open)
      ensures OpenSessions() == {}
      ensures old(currentSession) == null ==> forall s :: s in sessions ==> s.open == old(s.open)
      ensures unchanged(leases) && wakeLock == old(wakeLock)
    {
      if currentSession != null {
        currentSession.Close();
      }
      currentSession := null;
      currentModelType := None;
    }

    /** `acquireWakeLock`: a new lease, held for at most ten minutes, only when
        none is held; otherwise the held lease stays. */
    method AcquireWakeLock()
      requires Valid()
      modifies this`wakeLock, this`leases
      ensures Valid() && wakeLock != null && wakeLock.held
      ensures old(wakeLock) != null ==> wakeLock == old(wakeLock) && leases == old(leases)
      ensures old(wakeLock) == null ==>
                fresh(wakeLock) && wakeLock.timeoutMs == WakeLockTimeoutMs &&
                wakeLock.tag == WakeLockTag && leases == old(leases) + {wakeLock}
      ensures fresh(leases - old(leases))
      ensures unchanged(sessions) && currentSession == old(currentSession)
    {
      if wakeLock == null || !wakeLock.held {
        var lock := new WakeLock(WakeLockTag);
        lock.Acquire(WakeLockTimeoutMs);
        wakeLock := lock;
        leases := leases + {lock};
      }
    }

    /** `releaseWakeLock`: releases the held lease, if any; safe to call when
        none is held. */
    method ReleaseWakeLock()
      requires Valid()
      modifies this`wakeLock, leases
      ensures Valid() && wakeLock == null
      ensures old(wakeLock) != null ==> !old(wakeLock).held
      ensures forall l :: l in leases ==> !l.held
      ensures leases == old(leases) && unchanged(sessions)
      ensures currentSession == old(currentSession) && currentModelType == old(currentModelType)
    {
      if wakeLock != null {
        wakeLock.Release();
      }
      wakeLock := null;
    }

    /** `loadModel`: releases the resident model first, then takes the lease
        if none is held, then opens a session on the type's file. When the
        runtime refuses (environment never initialised, or a missing or
        corrupt file, decided by `accepted`), the old model is already gone and
        the lease stays held. */
    method LoadModel(t: ModelType, accepted: bool) returns (r: Result<Session>)
      requires Valid()
      modifies this, sessions
      ensures Valid()
      ensures old(currentSession) != null ==> !old(currentSession).open
      ensures wakeLock != null && wakeLock.held
      ensures old(wakeLock) != null ==> wakeLock == old(wakeLock) && wakeLock.timeoutMs == old(wakeLock.timeoutMs)
      ensures old(wakeLock) == null ==>
                fresh(wakeLock) && wakeLock.timeoutMs == WakeLockTimeoutMs && wakeLock.tag == WakeLockTag
      ensures fresh(sessions - old(sessions)) && fresh(leases - old(leases))
      ensures sessions >= old(sessions) && leases >= old(leases) && env == old(env)
      ensures r.Ok? <==> env == Open && accepted
      ensures r.Ok? ==>
                fresh(r.value) && sessions == old(sessions) + {r.value} &&
                currentSession == r.value && currentModelType == Some(t) &&
                r.value.modelType == t && r.value.path == ModelPath(filesDir, t) &&
                OpenSessions() == {r.value}
      ensures r.Err? ==>
                sessions == old(sessions) &&
                currentSession == null && currentModelType == None && OpenSessions() == {} &&
                r.error == if env == Uninitialized then EnvironmentNotInitialized
                           else ModelLoadFailure(ModelPath(filesDir, t))
    {
      ReleaseCurrentModel();
      AcquireWakeLock();
      var path := ModelPath(filesDir, t);
      if env == Uninitialized {
        r := Err(EnvironmentNotInitialized);
      } else if env == Closed || !accepted {
        r := Err(ModelLoadFailure(path));
      } else {
        var session := OpenSession(t, path);
        r := Ok(session);
      }
    }

    /** The session creation at the end of `loadModel`, into an empty slot. */
    method OpenSession(t: ModelType, path: string) returns (session: Session)
      requires Valid() && currentSession == null
      modifies this`currentSession, this`currentModelType, this`sessions
      ensures Valid() && fresh(session) && session.modelType == t && session.path == path
      ensures sessions == old(sessions) + {session} && OpenSessions() == {session}
      ensures currentSession == session && currentModelType == Some(t)
    {
      session := new Session(t, path);
      currentSession := session;
      currentModelType := Some(t);
      sessions := sessions + {session};
    }

    /** `getCurrentSession`: the resident session, or the "No model loaded"
        failure. */
    method GetCurrentSession() returns (r: Result<Session>)
      requires Valid()
      ensures currentSession != null ==> r.Ok? && r.value == currentSession && r.value.open
      ensures currentSession == null ==> r == Err(NoModelLoaded)
    {
      if currentSession == null {
        return Err(NoModelLoaded);
      }
      r := Ok(currentSession);
    }

    /** `releaseAll`: releases the model and the lease, then closes the
        environment; closing an environment that was never initialised fails
        after the two releases. */
    method ReleaseAll() returns (r: Result<()>)
      requires Valid()
      modifies this, sessions, leases
      ensures Valid()
      ensures currentSession == null && currentModelType == None && wakeLock == null
      ensures OpenSessions() == {} && forall l :: l in leases ==> !l.held
      ensures sessions == old(sessions) && leases == old(leases)
      ensures old(env) == Uninitialized ==> r == Err(EnvironmentNotInitialized) && env == Uninitialized
      ensures old(env) != Uninitialized ==> r == Ok(()) && env == Closed
    {
      ReleaseCurrentModel();
      ReleaseWakeLock();
      if env == Uninitialized {
        return Err(EnvironmentNotInitialized);
      }
      env := Closed;
      r := Ok(());
    }
  }

  /** A client of the manager: loading twice in a row closes the first session
      and keeps the lease the first load took, and releasing twice leaves the
      same empty slot as releasing once, with the lease still held. */
  method LoadTwiceReleaseTwice(m: OptimizedModelManager) returns (first: Result<Session>, second: Result<Session>)
    requires m.Valid() && m.env == Open
    modifies m, m.sessions, m.leases
    ensures first.Ok? && second.Ok? && first.value != second.value
    ensures first.value.modelType == WHISPER && second.value.modelType == NLLB
    ensures !first.value.open && !second.value.open && m.OpenSessions() == {}
    ensures m.currentSession == null && m.currentModelType == None
    ensures m.wakeLock != null && m.wakeLock.held
    ensures old(m.wakeLock) != null ==> m.wakeLock == old(m.wakeLock)
  {
    first := m.LoadModel(WHISPER, true);
    var lease := m.wakeLock;
    second := m.LoadModel(NLLB, true);
    assert !first.value.open && second.value.open;
    assert m.OpenSessions() == {second.value};
    assert m.wakeLock == lease;
    m.ReleaseCurrentModel();
    m.ReleaseCurrentModel();
  }

  // ---------------------------------------------------------------------------
  // Memory telemetry

  const Mebibyte: int := 1024 * 1024

  datatype MemoryInfo = MemoryInfo(usedMemoryMB: int, totalMemoryMB: int, maxMemoryMB: int, freeMemoryMB: int)

  /** `getMemoryUsage` on the runtime's byte counts: used is total minus free,
      and every figure is divided by 2^20 with Kotlin's truncating `/`. */
  function MemoryUsage(totalBytes: int, freeBytes: int, maxBytes: int): (info: MemoryInfo)
    ensures info.usedMemoryMB == TruncDiv(totalBytes - freeBytes, Mebibyte)
    ensures 0 <= freeBytes <= totalBytes ==>
              info.usedMemoryMB * Mebibyte <= totalBytes - freeBytes < (info.usedMemoryMB + 1) * Mebibyte
    ensures totalBytes >= 0 && freeBytes >= 0 && maxBytes >= 0 ==>
              info.totalMemoryMB * Mebibyte <= totalBytes < (info.totalMemoryMB + 1) * Mebibyte &&
              info.freeMemoryMB * Mebibyte <= freeBytes < (info.freeMemoryMB + 1) * Mebibyte &&
              info.maxMemoryMB * Mebibyte <= maxBytes < (info.maxMemoryMB + 1) * Mebibyte
  {
    var used := totalBytes - freeBytes;
    MemoryInfo(TruncDiv(used, Mebibyte), TruncDiv(totalBytes, Mebibyte),
               TruncDiv(maxBytes, Mebibyte), TruncDiv(freeBytes, Mebibyte))
  }

  /** With the runtime's guarantee `0 <= free <= total`, the rounded-down used
      and free figures never add up to more than the rounded-down total. */
  lemma MemoryFiguresBounded(totalBytes: int, freeBytes: int, maxBytes: int)
    requires 0 <= freeBytes <= totalBytes && maxBytes >= 0
    ensures var info := MemoryUsage(totalBytes, freeBytes, maxBytes);
            0 <= info.usedMemoryMB && 0 <= info.freeMemoryMB &&
            info.usedMemoryMB + info.freeMemoryMB <= info.totalMemoryMB
  {
    var used := totalBytes - freeBytes;
    var u, f := used / Mebibyte, freeBytes / Mebibyte;
    assert u * Mebibyte <= used && f * Mebibyte <= freeBytes;
    assert (u + f) * Mebibyte <= totalBytes;
  }
}
