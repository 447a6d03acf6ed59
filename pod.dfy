/**
 * The pod helpers shared by the batch and the interactive run: the pod name,
 * the basic-auth secret and the env vars that read it, the readiness wait
 * and the foreground delete.
 */
module Pod {
  import opened Wrappers
  import opened Strs
  import opened DbCommander
  import opened Kube

  // ---------------------------------------------------------------- errors

  /** The errors the pod code returns, kept as the wrapping structure Go builds. */
  datatype Error =
    | ApiError(text: string)                        // reported by the API server, the client or the OS
    | DeadlineExceeded                              // the readiness poll's one-minute context expired
    | ImagePullBackOffError(message: string, reason: string)
    | Wrapped(prefix: string, cause: Error)         // fmt.Errorf("<prefix>%w", cause)
    | Joined(first: Error, second: Error)           // errors.Join(first, second)
    | WrappedPair(prefix: string, first: Error, middle: string, second: Error)

  /** The text Error() returns. */
  function Message(e: Error): string {
    match e
    case ApiError(t) => t
    case DeadlineExceeded => "context deadline exceeded"
    case ImagePullBackOffError(m, r) => "reason: " + r + ", message: " + m
    case Wrapped(p, c) => p + Message(c)
    case Joined(a, b) => Message(a) + "\n" + Message(b)
    case WrappedPair(p, a, mid, b) => p + Message(a) + mid + Message(b)
  }

  /** `inner` is on the error's unwrap tree, where errors.Is and errors.As look. */
  predicate Carries(e: Error, inner: Error) {
    e == inner ||
    match e
    case Wrapped(_, c) => Carries(c, inner)
    case Joined(a, b) => Carries(a, inner) || Carries(b, inner)
    case WrappedPair(_, a, _, b) => Carries(a, inner) || Carries(b, inner)
    case _ => false
  }

  /** The message of an ImagePullBackOffError names the reason and gives back the kubelet's message. */
  lemma BackOffMessage(m: string, r: string)
    ensures var text := Message(ImagePullBackOffError(m, r));
      HasPrefix(text, "reason: " + r + ", message: ")
      && text[|"reason: " + r + ", message: "|..] == m
  {
    var text := Message(ImagePullBackOffError(m, r));
    var head := "reason: " + r + ", message: ";
    assert text == head + m;
    assert text[..|head|] == head;
  }

  // ---------------------------------------------------------------- naming

  /** The user name as it appears in the pod name: '_' becomes '-', '.' is deleted. */
  function Sanitize(user: string): (r: string)
    ensures '_' !in r && '.' !in r
  {
    ReplaceAll(ReplaceAll(user, '_', "-"), '.', "")
  }

  /** A name that already avoids '_' and '.' is kept as it is. */
  lemma SanitizeKeepsPlainNames(user: string)
    requires '_' !in user && '.' !in user
    ensures Sanitize(user) == user
  {
    ReplaceAllAbsent(user, '_', "-");
    ReplaceAllAbsent(user, '.', "");
  }

  /** Sanitising twice is sanitising once. */
  lemma SanitizeIdempotent(user: string)
    ensures Sanitize(Sanitize(user)) == Sanitize(user)
  {
    SanitizeKeepsPlainNames(Sanitize(user));
  }

  /** A wall-clock time in Asia/Tokyo, as time.Now().In(tz) gives it. */
  datatype DateTime = DateTime(year: nat, month: nat, day: nat, hour: nat, minute: nat, second: nat)
  {
    predicate Valid() {
      1 <= month <= 12 && 1 <= day <= 31 && hour < 24 && minute < 60 && second < 60
    }
  }

  function DigitChar(d: nat): char
    requires d < 10
  {
    "0123456789"[d]
  }

  function DigitValue(c: char): nat {
    if '0' <= c <= '9' then (c as int - '0' as int) as nat else 0
  }

  /** The decimal digits of `n`, left-padded with '0' to at least `width` (Go's appendInt). */
  function PadDecimal(n: nat, width: nat): string
    decreases n + width
  {
    if n < 10 && width <= 1 then [DigitChar(n)]
    else PadDecimal(n / 10, if width > 0 then width - 1 else 0) + [DigitChar(n % 10)]
  }

  /** The number a string of decimal digits denotes. */
  function DecimalValue(s: string): nat {
    if s == [] then 0 else DecimalValue(s[..|s| - 1]) * 10 + DigitValue(s[|s| - 1])
  }

  function Pow10(w: nat): nat {
    if w == 0 then 1 else 10 * Pow10(w - 1)
  }

  /** A number below 10^width is printed in exactly `width` digits, and they read back as it. */
  lemma {:induction false} PadDecimalRoundTrip(n: nat, width: nat)
    requires width >= 1 && n < Pow10(width)
    ensures |PadDecimal(n, width)| == width
    ensures DecimalValue(PadDecimal(n, width)) == n
    decreases width
  {
    if n < 10 && width <= 1 {
      assert DigitValue(DigitChar(n)) == n;
      assert [DigitChar(n)][..0] == [];
    } else {
      assert width > 1;
      PadDecimalRoundTrip(n / 10, width - 1);
      var s := PadDecimal(n, width);
      assert s[..|s| - 1] == PadDecimal(n / 10, width - 1);
      assert DigitValue(DigitChar(n % 10)) == n % 10;
    }
  }

  /** The layout "20060102-150405": yyyyMMdd-HHmmss. */
  function FormatStamp(t: DateTime): string {
    PadDecimal(t.year, 4) + PadDecimal(t.month, 2) + PadDecimal(t.day, 2) + "-"
      + PadDecimal(t.hour, 2) + PadDecimal(t.minute, 2) + PadDecimal(t.second, 2)
  }

  /** Reads a "20060102-150405" stamp back. */
  function ParseStamp(s: string): DateTime
    requires |s| == 15
  {
    DateTime(DecimalValue(s[0..4]), DecimalValue(s[4..6]), DecimalValue(s[6..8]),
      DecimalValue(s[9..11]), DecimalValue(s[11..13]), DecimalValue(s[13..15]))
  }

  /** The fields of a stamp are read back from the positions FormatStamp writes them to. */
  lemma ParseStampFields(y: string, mo: string, d: string, h: string, mi: string, se: string)
    requires |y| == 4 && |mo| == 2 && |d| == 2 && |h| == 2 && |mi| == 2 && |se| == 2
    ensures var s := y + mo + d + "-" + h + mi + se;
      |s| == 15 && s[8] == '-'
      && ParseStamp(s) == DateTime(DecimalValue(y), DecimalValue(mo), DecimalValue(d),
           DecimalValue(h), DecimalValue(mi), DecimalValue(se))
  {
    var s := y + mo + d + "-" + h + mi + se;
    assert s[0..4] == y;
    assert s[4..6] == mo;
    assert s[6..8] == d;
    assert s[9..11] == h;
    assert s[11..13] == mi;
    assert s[13..15] == se;
  }

  /** Before year 10000 the stamp has fixed width and determines the time. */
  lemma StampRoundTrip(t: DateTime)
    requires t.Valid() && t.year < 10000
    ensures |FormatStamp(t)| == 15 && FormatStamp(t)[8] == '-'
    ensures ParseStamp(FormatStamp(t)) == t
  {
    assert Pow10(2) == 100 && Pow10(4) == 10000;
    PadDecimalRoundTrip(t.year, 4);
    PadDecimalRoundTrip(t.month, 2);
    PadDecimalRoundTrip(t.day, 2);
    PadDecimalRoundTrip(t.hour, 2);
    PadDecimalRoundTrip(t.minute, 2);
    PadDecimalRoundTrip(t.second, 2);
    ParseStampFields(PadDecimal(t.year, 4), PadDecimal(t.month, 2), PadDecimal(t.day, 2),
      PadDecimal(t.hour, 2), PadDecimal(t.minute, 2), PadDecimal(t.second, 2));
  }

  /** prefix-<stamp>-<sanitised user>. */
  function PodName(prefix: string, stamp: string, user: string): string {
    Join([prefix, stamp, Sanitize(user)], "-")
  }

  /**
   * Two pods named at different seconds (before year 10000) with the same
   * prefix get different names, whoever runs them.
   */
  lemma PodNamesDifferAcrossSeconds(prefix: string, t1: DateTime, u1: string, t2: DateTime, u2: string)
    requires t1.Valid() && t1.year < 10000 && t2.Valid() && t2.year < 10000
    requires PodName(prefix, FormatStamp(t1), u1) == PodName(prefix, FormatStamp(t2), u2)
    ensures t1 == t2 && Sanitize(u1) == Sanitize(u2)
  {
    StampRoundTrip(t1);
    StampRoundTrip(t2);
    var s1, s2 := FormatStamp(t1), FormatStamp(t2);
    var n1 := prefix + "-" + s1 + "-" + Sanitize(u1);
    var n2 := prefix + "-" + s2 + "-" + Sanitize(u2);
    PodNameLayout(prefix, s1, u1);
    PodNameLayout(prefix, s2, u2);
    var k := |prefix| + 1;
    assert n1[k..k + 15] == s1;
    assert n2[k..k + 15] == s2;
    assert n1[k + 16..] == Sanitize(u1);
    assert n2[k + 16..] == Sanitize(u2);
  }

  lemma PodNameLayout(prefix: string, stamp: string, user: string)
    ensures PodName(prefix, stamp, user) == prefix + "-" + stamp + "-" + Sanitize(user)
  {
    JoinCons(stamp, [Sanitize(user)], "-");
    JoinCons(prefix, [stamp, Sanitize(user)], "-");
    assert [prefix] + [stamp, Sanitize(user)] == [prefix, stamp, Sanitize(user)];
  }

  /** What CreatePodName can come to: a name, an error, or a nil-pointer panic. */
  datatype NameOutcome = Named(name: string) | NameFailed(err: Error) | NilDereference

  /**
   * CreatePodName as written: the user name is read before the lookup error
   * is checked, and a failed lookup returns a nil user.
   */
  function CreatePodNameAsWritten(
    prefix: string, currentUser: Result<string, Error>, location: Option<Error>, now: DateTime): NameOutcome
  {
    if currentUser.Failure? then NilDereference
    else if location.Some? then NameFailed(Wrapped("failed to load location: ", location.value))
    else Named(PodName(prefix, FormatStamp(now), currentUser.value))
  }

  /** When the user lookup fails the source dereferences the nil user instead of returning the error. */
  lemma AsWrittenPanicsWhenLookupFails(prefix: string, e: Error, location: Option<Error>, now: DateTime)
    ensures CreatePodNameAsWritten(prefix, Failure(e), location, now) == NilDereference
    ensures !CreatePodNameAsWritten(prefix, Failure(e), location, now).NameFailed?
  {
  }

  /** CreatePodName with the lookup error checked first, as the error message it carries intends. */
  function CreatePodName(
    prefix: string, currentUser: Result<string, Error>, location: Option<Error>, now: DateTime): (r: Result<string, Error>)
    ensures currentUser.Failure? ==>
      r == Failure(Wrapped("failed to get current user: ", currentUser.error))
    ensures currentUser.Success? && location.Some? ==>
      r.Failure? && Carries(r.error, location.value)
    ensures r.Success? ==> currentUser.Success? && location.None?
  {
    if currentUser.Failure? then Failure(Wrapped("failed to get current user: ", currentUser.error))
    else if location.Some? then Failure(Wrapped("failed to load location: ", location.value))
    else Success(PodName(prefix, FormatStamp(now), currentUser.value))
  }

  /** The corrected CreatePodName agrees with the source whenever the source does not panic. */
  lemma CreatePodNameAgrees(prefix: string, currentUser: Result<string, Error>, location: Option<Error>, now: DateTime)
    ensures var w := CreatePodNameAsWritten(prefix, currentUser, location, now);
      var r := CreatePodName(prefix, currentUser, location, now);
      (w.Named? <==> r.Success?) && (w.Named? ==> w.name == r.value)
      && (w.NameFailed? ==> r == Failure(w.err))
      && (w.NilDereference? <==> currentUser.Failure?)
  {
  }

  /** A successful name is the prefix, the stamp and the sanitised user, each behind one '-'. */
  lemma CreatePodNameLayout(prefix: string, user: string, now: DateTime)
    requires now.Valid() && now.year < 10000
    ensures var r := CreatePodName(prefix, Success(user), None, now);
      |FormatStamp(now)| == 15
      && r.Success? && r.value == prefix + "-" + FormatStamp(now) + "-" + Sanitize(user)
      && r.value[|prefix| + 1..|prefix| + 16] == FormatStamp(now)
  {
    PodNameLayout(prefix, FormatStamp(now), user);
    StampRoundTrip(now);
    var s := prefix + "-" + FormatStamp(now) + "-" + Sanitize(user);
    assert s[|prefix| + 1..|prefix| + 16] == FormatStamp(now);
  }

  // ------------------------------------------------------ secret and env

  function SecretName(podName: string): string {
    podName + "-secret"
  }

  /** The basic-auth secret holding the user and password, owned by (and deleted with) the pod. */
  function CreateBasicAuthSecretSpec(secretName: string, namespace: string, ci: ConnectInfo, pod: Pod): Secret {
    Secret(ObjectMeta(secretName, namespace, "", [NewControllerRef(pod)]),
      BasicAuth, map["username" := ci.user, "password" := ci.password])
  }

  /** An object is owned and controlled by the pod, so it is garbage-collected with it. */
  predicate ControlledBy(meta: ObjectMeta, pod: Pod) {
    exists r :: r in meta.ownerReferences && r.controller && r.kind == "Pod"
      && r.name == pod.meta.name && r.uid == pod.meta.uid
  }

  /** The secret is a basic-auth secret of the pod's user and password, controlled by the pod. */
  lemma SecretSpecProperties(secretName: string, namespace: string, ci: ConnectInfo, pod: Pod)
    ensures var s := CreateBasicAuthSecretSpec(secretName, namespace, ci, pod);
      s.meta.name == secretName && s.meta.namespace == namespace
      && s.secretType == BasicAuth && s.stringData.Keys == {"username", "password"}
      && s.stringData["username"] == ci.user && s.stringData["password"] == ci.password
      && ControlledBy(s.meta, pod)
  {
    var s := CreateBasicAuthSecretSpec(secretName, namespace, ci, pod);
    assert NewControllerRef(pod) in s.meta.ownerReferences;
  }

  /** The literal time zone both pods set after the secret-derived variables. */
  const TimeZoneVar := EnvVar("TZ", Literal("Asia/Tokyo"))

  function GenerateEnvVar(secretName: string, name: string, key: string): EnvVar {
    EnvVar(name, SecretKeyRef(secretName, key))
  }

  /** No two env vars share a name. */
  predicate DistinctNames(env: seq<EnvVar>) {
    forall i, j :: 0 <= i < j < |env| ==> env[i].name != env[j].name
  }

  /**
   * `env` is the secret-derived list for `kv`, in some order: one variable per
   * entry, named by the key and reading the mapped key of `<pod>-secret`.
   */
  predicate IsSecretEnv(env: seq<EnvVar>, podName: string, kv: map<string, string>) {
    |env| == |kv| && DistinctNames(env)
    && (forall i :: 0 <= i < |env| ==>
          env[i].name in kv && env[i] == GenerateEnvVar(SecretName(podName), env[i].name, kv[env[i].name]))
    && (forall k :: k in kv ==> exists i :: 0 <= i < |env| && env[i].name == k)
  }

  /** generateSecretEnvVars: one variable per entry of the map, in the map's (unspecified) order. */
  method GenerateSecretEnvVars(podName: string, kv: map<string, string>) returns (envVars: seq<EnvVar>)
    ensures IsSecretEnv(envVars, podName, kv)
  {
    var secretName := SecretName(podName);
    envVars := [];
    var remaining := kv.Keys;
    while remaining != {}
      invariant remaining <= kv.Keys
      invariant |envVars| + |remaining| == |kv.Keys|
      invariant DistinctNames(envVars)
      invariant forall i :: 0 <= i < |envVars| ==>
        envVars[i].name in kv && envVars[i].name !in remaining
        && envVars[i] == GenerateEnvVar(secretName, envVars[i].name, kv[envVars[i].name])
      invariant forall k :: k in kv && k !in remaining ==>
        exists i :: 0 <= i < |envVars| && envVars[i].name == k
      decreases |remaining|
    {
      var k :| k in remaining;
      ghost var before := envVars;
      envVars := envVars + [GenerateEnvVar(secretName, k, kv[k])];
      remaining := remaining - {k};
      assert envVars[|envVars| - 1].name == k;
      forall k' | k' in kv && k' !in remaining
        ensures exists i :: 0 <= i < |envVars| && envVars[i].name == k'
      {
        if k' != k {
          var i :| 0 <= i < |before| && before[i].name == k';
          assert envVars[i] == before[i];
        }
      }
    }
  }

  /** Every secret-derived variable reads a key the pod's basic-auth secret holds. */
  lemma SecretEnvReadsSecret(
    env: seq<EnvVar>, podName: string, kv: map<string, string>, namespace: string, ci: ConnectInfo, pod: Pod)
    requires IsSecretEnv(env, podName, kv)
    requires forall k :: k in kv ==> kv[k] in {"username", "password"}
    ensures var s := CreateBasicAuthSecretSpec(SecretName(podName), namespace, ci, pod);
      forall i :: 0 <= i < |env| ==>
        env[i].source.SecretKeyRef? && env[i].source.secretName == s.meta.name
        && env[i].source.key in s.stringData
  {
  }

  // ------------------------------------------------------ readiness wait

  /** One Get of the pod during the wait: the call failed, or it returned the pod's status. */
  datatype PollObservation = GetFailed(err: Error) | Observed(status: PodStatus)

  /** The per-poll decision: stop with success, keep polling, or stop with an error. */
  datatype StepResult = Done | KeepWaiting | StepFailed(err: Error)

  /** The pod has left Pending: Running, Succeeded or Failed. */
  predicate Started(phase: PodPhase) {
    phase == Running || phase == Succeeded || phase == Failed
  }

  predicate IsBackOff(cs: ContainerStatus) {
    cs.waiting.Some? && cs.waiting.value.reason == "ImagePullBackOff"
  }

  /** The waiting state of the first container stuck in ImagePullBackOff. */
  function FirstBackOff(ss: seq<ContainerStatus>): Option<Waiting> {
    if ss == [] then None
    else if IsBackOff(ss[0]) then Some(ss[0].waiting.value)
    else FirstBackOff(ss[1..])
  }

  /** The decision one observation leads to. */
  function StepOf(obs: PollObservation): StepResult {
    match obs
    case GetFailed(e) => StepFailed(Wrapped("failed to get pod: ", e))
    case Observed(st) =>
      if Started(st.phase) then Done
      else match FirstBackOff(st.containerStatuses)
        case Some(w) => StepFailed(ImagePullBackOffError(w.message, w.reason))
        case None => KeepWaiting
  }

  /** FirstBackOff finds a container in back-off exactly when there is one, and the first one. */
  lemma {:induction false} FirstBackOffMeaning(ss: seq<ContainerStatus>)
    ensures FirstBackOff(ss).Some? <==> exists i :: 0 <= i < |ss| && IsBackOff(ss[i])
    ensures FirstBackOff(ss).Some? ==>
      exists i :: 0 <= i < |ss| && IsBackOff(ss[i])
        && ss[i].waiting.value == FirstBackOff(ss).value
        && forall j :: 0 <= j < i ==> !IsBackOff(ss[j])
  {
    if ss != [] && !IsBackOff(ss[0]) {
      FirstBackOffMeaning(ss[1..]);
      if FirstBackOff(ss).Some? {
        var i :| 0 <= i < |ss[1..]| && IsBackOff(ss[1..][i])
          && ss[1..][i].waiting.value == FirstBackOff(ss[1..]).value
          && forall j :: 0 <= j < i ==> !IsBackOff(ss[1..][j]);
        assert ss[i + 1] == ss[1..][i];
        forall j | 0 <= j < i + 1 ensures !IsBackOff(ss[j]) {
          if j > 0 {
            assert ss[j] == ss[1..][j - 1];
          }
        }
      } else {
        forall i | 0 <= i < |ss| ensures !IsBackOff(ss[i]) {
          if i > 0 {
            assert ss[i] == ss[1..][i - 1];
          }
        }
      }
    } else if ss != [] {
      assert IsBackOff(ss[0]);
    }
  }

  /**
   * A step is done exactly when the pod has started; otherwise it fails with
   * the back-off of the first container stuck pulling its image, or keeps waiting.
   */
  lemma StepMeaning(st: PodStatus)
    ensures StepOf(Observed(st)) == Done <==> Started(st.phase)
    ensures StepOf(Observed(st)).StepFailed? <==>
      !Started(st.phase) && exists i :: 0 <= i < |st.containerStatuses| && IsBackOff(st.containerStatuses[i])
    ensures StepOf(Observed(st)).StepFailed? ==>
      exists i :: 0 <= i < |st.containerStatuses| && IsBackOff(st.containerStatuses[i])
        && (forall j :: 0 <= j < i ==> !IsBackOff(st.containerStatuses[j]))
        && StepOf(Observed(st)).err == ImagePullBackOffError(
             st.containerStatuses[i].waiting.value.message, "ImagePullBackOff")
  {
    FirstBackOffMeaning(st.containerStatuses);
  }

  /** The poll condition: the phase check first, then a scan of the container statuses. */
  method PollStep(obs: PollObservation) returns (r: StepResult)
    ensures r == StepOf(obs)
  {
    if obs.GetFailed? {
      return StepFailed(Wrapped("failed to get pod: ", obs.err));
    }
    var status := obs.status;
    if Started(status.phase) {
      return Done;
    }
    var i := 0;
    while i < |status.containerStatuses|
      invariant 0 <= i <= |status.containerStatuses|
      invariant FirstBackOff(status.containerStatuses[i..]) == FirstBackOff(status.containerStatuses)
    {
      var cs := status.containerStatuses[i];
      assert status.containerStatuses[i..][1..] == status.containerStatuses[i + 1..];
      if cs.waiting.Some? && cs.waiting.value.reason == "ImagePullBackOff" {
        return StepFailed(ImagePullBackOffError(cs.waiting.value.message, cs.waiting.value.reason));
      }
      i := i + 1;
    }
    return KeepWaiting;
  }

  /** How the wait ends: the pod started, a step failed, or the minute ran out. */
  datatype WaitVerdict = Ready | StoppedBy(err: Error) | TimedOut

  /** The verdict of the observations made before the deadline, in order. */
  function Verdict(polls: seq<PollObservation>): WaitVerdict {
    if polls == [] then TimedOut
    else match StepOf(polls[0])
      case Done => Ready
      case StepFailed(e) => StoppedBy(e)
      case KeepWaiting => Verdict(polls[1..])
  }

  /** The verdict is decided by the first observation that does not say keep waiting. */
  lemma {:induction false} VerdictIsFirstDecision(polls: seq<PollObservation>)
    ensures Verdict(polls) == TimedOut <==> forall i :: 0 <= i < |polls| ==> StepOf(polls[i]) == KeepWaiting
    ensures Verdict(polls) != TimedOut ==>
      exists i :: 0 <= i < |polls|
        && (forall j :: 0 <= j < i ==> StepOf(polls[j]) == KeepWaiting)
        && (StepOf(polls[i]) == Done <==> Verdict(polls) == Ready)
        && (StepOf(polls[i]).StepFailed? ==> Verdict(polls) == StoppedBy(StepOf(polls[i]).err))
  {
    if polls != [] && StepOf(polls[0]) == KeepWaiting {
      VerdictIsFirstDecision(polls[1..]);
      if Verdict(polls) != TimedOut {
        var i :| 0 <= i < |polls[1..]|
          && (forall j :: 0 <= j < i ==> StepOf(polls[1..][j]) == KeepWaiting)
          && (StepOf(polls[1..][i]) == Done <==> Verdict(polls[1..]) == Ready)
          && (StepOf(polls[1..][i]).StepFailed? ==> Verdict(polls[1..]) == StoppedBy(StepOf(polls[1..][i]).err));
        assert polls[i + 1] == polls[1..][i];
        forall j | 0 <= j < i + 1 ensures StepOf(polls[j]) == KeepWaiting {
          if j > 0 {
            assert polls[j] == polls[1..][j - 1];
          }
        }
      } else {
        forall i | 0 <= i < |polls| ensures StepOf(polls[i]) == KeepWaiting {
          if i > 0 {
            assert polls[i] == polls[1..][i - 1];
          }
        }
      }
    } else if polls != [] {
      assert StepOf(polls[0]) != KeepWaiting;
    }
  }

  /** The API calls the model records; Gets during the polls are the observations themselves. */
  datatype Call =
    | CreatePod(pod: Pod)
    | CreateConfigMap(configMap: ConfigMap)
    | CreateSecret(secret: Secret)
    | DeletePod(name: string, options: DeleteOptions)
    | StreamLogs(name: string)
    | Exec(podName: string, execOptions: PodExecOptions)

  /** The delete call deletePod issues: foreground propagation, so dependents go first. */
  function ForegroundDelete(podName: string): Call {
    DeletePod(podName, DeleteOptions(Some(Foreground)))
  }

  /** deletePod: the delete call and the error it returns for the API's answer. */
  function DeletePodError(outcome: Option<Error>): (r: Option<Error>)
    ensures r.None? <==> outcome.None?
    ensures r.Some? ==> Carries(r.value, outcome.value) && HasPrefix(Message(r.value), "failed to delete pod: ")
  {
    match outcome
    case None => None
    case Some(e) => Some(Wrapped("failed to delete pod: ", e))
  }

  /** The error waitForPodRunning returns for a verdict and the outcome of its cleanup delete. */
  function WaitError(v: WaitVerdict, deleteOutcome: Option<Error>): Option<Error> {
    match v
    case Ready => None
    case TimedOut => Some(Wrapped("failed to wait for pod running: ", DeadlineExceeded))
    case StoppedBy(e) =>
      if e.ImagePullBackOffError? then
        var err := Wrapped("pod running failed. ", e);
        match DeletePodError(deleteOutcome)
        case Some(derr) => Some(Joined(err, derr))
        case None => Some(err)
      else Some(Wrapped("failed to wait for pod running: ", e))
  }

  /** The calls the wait issues: one foreground delete, only after an image-pull back-off. */
  function WaitCalls(podName: string, v: WaitVerdict): seq<Call> {
    if v.StoppedBy? && v.err.ImagePullBackOffError? then [ForegroundDelete(podName)] else []
  }

  /**
   * waitForPodRunning over the observations the poll makes before its
   * deadline; `deleteOutcome` is the API's answer to the cleanup delete.
   */
  method WaitForPodRunning(podName: string, polls: seq<PollObservation>, deleteOutcome: Option<Error>)
    returns (err: Option<Error>, calls: seq<Call>)
    ensures err == WaitError(Verdict(polls), deleteOutcome)
    ensures calls == WaitCalls(podName, Verdict(polls))
  {
    var i := 0;
    while i < |polls|
      invariant 0 <= i <= |polls|
      invariant Verdict(polls[i..]) == Verdict(polls)
    {
      assert polls[i..][1..] == polls[i + 1..];
      var r := PollStep(polls[i]);
      match r {
        case Done =>
          return None, [];
        case StepFailed(e) =>
          if e.ImagePullBackOffError? {
            var wrapped := Wrapped("pod running failed. ", e);
            calls := [ForegroundDelete(podName)];
            if deleteOutcome.Some? {
              return Some(Joined(wrapped, Wrapped("failed to delete pod: ", deleteOutcome.value))), calls;
            }
            return Some(wrapped), calls;
          }
          return Some(Wrapped("failed to wait for pod running: ", e)), [];
        case KeepWaiting =>
      }
      i := i + 1;
    }
    return Some(Wrapped("failed to wait for pod running: ", DeadlineExceeded)), [];
  }

  /**
   * The wait succeeds exactly when the pod started; an image-pull back-off
   * deletes the pod once and reports the back-off, joined with the delete's
   * error when that fails too; any other failure deletes nothing.
   */
  lemma WaitOutcomes(podName: string, polls: seq<PollObservation>, deleteOutcome: Option<Error>)
    ensures var v := Verdict(polls);
      var err := WaitError(v, deleteOutcome);
      var calls := WaitCalls(podName, v);
      (err.None? <==> v == Ready)
      && (v.StoppedBy? && v.err.ImagePullBackOffError? ==>
            calls == [ForegroundDelete(podName)] && Carries(err.value, v.err)
            && (deleteOutcome.Some? ==> err.value.Joined? && Carries(err.value, deleteOutcome.value))
            && (deleteOutcome.None? ==> err.value == Wrapped("pod running failed. ", v.err)))
      && (!(v.StoppedBy? && v.err.ImagePullBackOffError?) ==> calls == [])
      && (v == TimedOut ==> Carries(err.value, DeadlineExceeded))
  {
  }

  /** A pod that keeps reporting a back-off before it starts fails the wait with the first stuck container. */
  lemma BackOffStopsTheWait(podName: string, st: PodStatus, rest: seq<PollObservation>, deleteOutcome: Option<Error>)
    requires !Started(st.phase)
    requires exists i :: 0 <= i < |st.containerStatuses| && IsBackOff(st.containerStatuses[i])
    ensures var v := Verdict([Observed(st)] + rest);
      v.StoppedBy? && v.err.ImagePullBackOffError? && v.err.reason == "ImagePullBackOff"
      && WaitCalls(podName, v) == [ForegroundDelete(podName)]
  {
    StepMeaning(st);
    FirstBackOffMeaning(st.containerStatuses);
  }
}
