/**
 * The interactive run: an idle pod with the engine's client image and the
 * credentials secret, into which the interactive command is exec'd with a
 * terminal, deleted when the session ends.
 */
module ExecPod {
  import opened Wrappers
  import opened DbCommander
  import opened Kube
  import opened Engines
  import opened Pod
  import RunPod

  /** The idle command that keeps the exec pod alive. */
  const IdleCommand := ["/bin/sh", "-c", "tail -f /dev/null"]

  /**
   * The exec pod: the run pod's container name, image, env and restart
   * policy, but no volume and an idle command instead of the batch command.
   */
  predicate IsExecPodSpec(pod: Kube.Pod, podName: string, namespace: string, v: EngineView) {
    pod.meta == ObjectMeta(podName, namespace, "", [])
    && pod.spec.volumes == []
    && pod.spec.restartPolicy == Never
    && |pod.spec.containers| == 1
    && var ct := pod.spec.containers[0];
      ct.name == v.commandType.String() && ct.image == v.containerImage
      && ct.volumeMounts == []
      && |ct.env| >= 1 && ct.env[|ct.env| - 1] == TimeZoneVar
      && IsSecretEnv(ct.env[..|ct.env| - 1], podName, v.secretEnvKV)
      && ct.command == IdleCommand
  }

  /** createExecPodSpec. */
  method CreateExecPodSpec(podName: string, namespace: string, v: EngineView) returns (pod: Kube.Pod)
    ensures IsExecPodSpec(pod, podName, namespace, v)
  {
    var env := GenerateSecretEnvVars(podName, v.secretEnvKV);
    var container := Container(v.commandType.String(), v.containerImage, [], env + [TimeZoneVar], IdleCommand);
    pod := Kube.Pod(ObjectMeta(podName, namespace, "", []), PodSpec([], [container], Never));
    assert container.env[..|container.env| - 1] == env;
  }

  /** The exec request: the interactive command in the engine's container, on a terminal, without stderr. */
  function ExecOptionsFor(v: EngineView): PodExecOptions {
    PodExecOptions(v.commandType.String(), ["/bin/sh", "-c", v.interactiveCommand], true, true, false, true)
  }

  /** The exec lands in the exec pod's only container and runs the interactive command there. */
  lemma ExecTargetsPodContainer(pod: Kube.Pod, podName: string, namespace: string, v: EngineView)
    requires IsExecPodSpec(pod, podName, namespace, v)
    ensures var opts := ExecOptionsFor(v);
      opts.container == pod.spec.containers[0].name
      && opts.command[2] == v.interactiveCommand && opts.command[..2] == IdleCommand[..2]
      && opts.stdin && opts.stdout && opts.tty && !opts.stderr
  {
  }

  /** The same secret-derived variables, whatever order each list has them in. */
  lemma SecretEnvsAgree(a: seq<EnvVar>, b: seq<EnvVar>, podName: string, kv: map<string, string>)
    requires IsSecretEnv(a, podName, kv) && IsSecretEnv(b, podName, kv)
    ensures forall e :: e in a <==> e in b
  {
    forall e | e in a ensures e in b {
      var i :| 0 <= i < |a| && a[i] == e;
      var j :| 0 <= j < |b| && b[j].name == e.name;
    }
    forall e | e in b ensures e in a {
      var i :| 0 <= i < |b| && b[i] == e;
      var j :| 0 <= j < |a| && a[j].name == e.name;
    }
  }

  /**
   * The exec pod mirrors the run pod of the same name: container name,
   * image, restart policy and env agree; it has no volume.
   */
  lemma ExecPodMirrorsRunPod(run: Kube.Pod, exec: Kube.Pod, podName: string, namespace: string, cmName: string, v: EngineView)
    requires RunPod.IsRunPodSpec(run, podName, namespace, cmName, v)
    requires IsExecPodSpec(exec, podName, namespace, v)
    ensures exec.meta == run.meta && exec.spec.restartPolicy == run.spec.restartPolicy
    ensures exec.spec.containers[0].name == run.spec.containers[0].name
    ensures exec.spec.containers[0].image == run.spec.containers[0].image
    ensures forall e :: e in exec.spec.containers[0].env <==> e in run.spec.containers[0].env
    ensures exec.spec.volumes == [] && run.spec.volumes != []
  {
    PodEnvsAgree(run.spec.containers[0].env, exec.spec.containers[0].env, podName, v.secretEnvKV);
  }

  /** Two pod env lists built the same way hold the same variables. */
  lemma PodEnvsAgree(a: seq<EnvVar>, b: seq<EnvVar>, podName: string, kv: map<string, string>)
    requires |a| >= 1 && a[|a| - 1] == TimeZoneVar && IsSecretEnv(a[..|a| - 1], podName, kv)
    requires |b| >= 1 && b[|b| - 1] == TimeZoneVar && IsSecretEnv(b[..|b| - 1], podName, kv)
    ensures forall e :: e in a <==> e in b
  {
    SecretEnvsAgree(a[..|a| - 1], b[..|b| - 1], podName, kv);
    assert a == a[..|a| - 1] + [TimeZoneVar];
    assert b == b[..|b| - 1] + [TimeZoneVar];
  }

  /** The exec pod idles: its command is never the engine's batch command. */
  lemma IdleIsNotBatchCommand(c: Commander)
    ensures IdleCommand != ["/bin/sh", "-c", c.Command()]
  {
    var idle := "tail -f /dev/null";
    assert idle[0] == 't';
    match c
    case MysqlEngine(m) =>
      Mysql.CommandLayout(m.State());
      assert c.Command()[0] == 'm';
    case SqlServerEngine(s) =>
      if s.help {
        assert c.Command() == SqlServer.HelpCommand;
        assert c.Command()[0] == '/';
      } else {
        SqlServer.CommandLayout(s.State());
        SqlServer.ConnectionArgsJoined(s.connectInfo);
        assert c.Command()[0] == '/';
      }
  }

  /** The API's answers to the calls ExecPod makes, in order. */
  datatype ExecOutcomes = ExecOutcomes(
    clientset: Option<Error>,
    createPod: Result<string, Error>,     // the uid the server assigns, or the failure
    createSecret: Option<Error>,
    polls: seq<PollObservation>,
    waitDelete: Option<Error>,
    executor: Option<Error>,              // building the SPDY executor
    stream: Option<Error>,                // how the terminal session ended
    delete: Option<Error>)

  predicate ObjectsCreated(o: ExecOutcomes) {
    o.clientset.None? && o.createPod.Success? && o.createSecret.None?
  }

  /** The session was started: objects created, pod ready, executor built. */
  predicate SessionStarted(o: ExecOutcomes) {
    ObjectsCreated(o) && Verdict(o.polls) == Ready && o.executor.None?
  }

  /** The two creation calls of an interactive run whose pod got `uid`. */
  predicate IsExecSetup(calls: seq<Call>, namespace: string, podName: string, v: EngineView, uid: string) {
    |calls| == 2 && calls[0].CreatePod?
    && IsExecPodSpec(calls[0].pod, podName, namespace, v)
    && calls[1] == CreateSecret(CreateBasicAuthSecretSpec(SecretName(podName), namespace,
         v.connectInfo, RunPod.Created(calls[0].pod, uid)))
  }

  /**
   * The error ExecPod returns when a creation call fails: the first failure
   * among the client, the pod and the secret, wrapped with what was being created.
   */
  function CreationError(o: ExecOutcomes): (r: Option<Error>)
    ensures r.None? <==> ObjectsCreated(o)
    ensures o.clientset.Some? ==> r == Some(Wrapped("failed to create clientset: ", o.clientset.value))
    ensures o.clientset.None? && o.createPod.Failure? ==>
      r == Some(Wrapped("failed to create pod: ", o.createPod.error))
    ensures o.clientset.None? && o.createPod.Success? && o.createSecret.Some? ==>
      r == Some(Wrapped("failed to create secret: ", o.createSecret.value))
  {
    if o.clientset.Some? then Some(Wrapped("failed to create clientset: ", o.clientset.value))
    else if o.createPod.Failure? then Some(Wrapped("failed to create pod: ", o.createPod.error))
    else if o.createSecret.Some? then Some(Wrapped("failed to create secret: ", o.createSecret.value))
    else None
  }

  /** The creation half of ExecPod: the pod, then its secret; no ConfigMap. */
  method CreateExecObjects(namespace: string, podName: string, v: EngineView, o: ExecOutcomes)
    returns (err: Option<Error>, calls: seq<Call>)
    ensures err == CreationError(o)
    ensures |calls| <= 2 && RunPod.DeleteCount(calls) == 0
    ensures o.clientset.Some? ==>
      calls == [] && err == Some(Wrapped("failed to create clientset: ", o.clientset.value))
    ensures o.clientset.None? ==>
      |calls| >= 1 && calls[0].CreatePod? && IsExecPodSpec(calls[0].pod, podName, namespace, v)
    ensures o.clientset.None? && o.createPod.Failure? ==>
      |calls| == 1 && err == Some(Wrapped("failed to create pod: ", o.createPod.error))
    ensures o.clientset.None? && o.createPod.Success? ==>
      IsExecSetup(calls, namespace, podName, v, o.createPod.value)
    ensures o.clientset.None? && o.createPod.Success? && o.createSecret.Some? ==>
      err == Some(Wrapped("failed to create secret: ", o.createSecret.value))
    ensures forall i :: 0 <= i < |calls| ==> !calls[i].CreateConfigMap?
  {
    if o.clientset.Some? {
      return Some(Wrapped("failed to create clientset: ", o.clientset.value)), [];
    }
    var podSpec := CreateExecPodSpec(podName, namespace, v);
    calls := [CreatePod(podSpec)];
    if o.createPod.Failure? {
      RunPod.NoDeletes(calls);
      return Some(Wrapped("failed to create pod: ", o.createPod.error)), calls;
    }
    var pod := RunPod.Created(podSpec, o.createPod.value);
    var secret := CreateBasicAuthSecretSpec(SecretName(podName), namespace, v.connectInfo, pod);
    calls := calls + [CreateSecret(secret)];
    RunPod.NoDeletes(calls);
    if o.createSecret.Some? {
      return Some(Wrapped("failed to create secret: ", o.createSecret.value)), calls;
    }
    return None, calls;
  }

  /**
   * The session half of ExecPod, once the pod is ready: build the executor,
   * stream the terminal session, then delete the pod however it ended.
   */
  method Session(podName: string, v: EngineView, o: ExecOutcomes) returns (err: Option<Error>, calls: seq<Call>)
    ensures o.executor.Some? ==>
      calls == [] && err == Some(Wrapped("failed to create executor: ", o.executor.value))
    ensures o.executor.None? ==> calls == [Exec(podName, ExecOptionsFor(v)), ForegroundDelete(podName)]
    ensures o.executor.None? && o.stream.Some? && o.delete.Some? ==>
      err == Some(WrappedPair("failed to execute command: ", o.stream.value,
        ", failed to delete pod: ", Wrapped("failed to delete pod: ", o.delete.value)))
    ensures o.executor.None? && o.stream.Some? && o.delete.None? ==>
      err == Some(Wrapped("failed to execute command: ", o.stream.value))
    ensures o.executor.None? && o.stream.None? ==> err == DeletePodError(o.delete)
  {
    var options := ExecOptionsFor(v);
    if o.executor.Some? {
      return Some(Wrapped("failed to create executor: ", o.executor.value)), [];
    }
    calls := [Exec(podName, options), ForegroundDelete(podName)];
    var derr := DeletePodError(o.delete);
    if o.stream.Some? {
      if derr.Some? {
        return Some(WrappedPair("failed to execute command: ", o.stream.value,
          ", failed to delete pod: ", derr.value)), calls;
      }
      return Some(Wrapped("failed to execute command: ", o.stream.value)), calls;
    }
    return derr, calls;
  }

  /**
   * What ExecPod does once its objects exist: wait for the pod, then run the
   * session. `calls` are the calls made after the two creation calls.
   */
  method AfterCreation(podName: string, v: EngineView, o: ExecOutcomes)
    returns (err: Option<Error>, calls: seq<Call>)
    ensures Verdict(o.polls) != Ready ==>
      calls == WaitCalls(podName, Verdict(o.polls)) && err == WaitError(Verdict(o.polls), o.waitDelete)
    ensures Verdict(o.polls) == Ready && o.executor.Some? ==>
      calls == [] && err == Some(Wrapped("failed to create executor: ", o.executor.value))
    ensures Verdict(o.polls) == Ready && o.executor.None? ==>
      calls == [Exec(podName, ExecOptionsFor(v)), ForegroundDelete(podName)]
    ensures Verdict(o.polls) == Ready && o.executor.None? && o.stream.Some? && o.delete.Some? ==>
      err == Some(WrappedPair("failed to execute command: ", o.stream.value,
        ", failed to delete pod: ", Wrapped("failed to delete pod: ", o.delete.value)))
    ensures Verdict(o.polls) == Ready && o.executor.None? && o.stream.Some? && o.delete.None? ==>
      err == Some(Wrapped("failed to execute command: ", o.stream.value))
    ensures Verdict(o.polls) == Ready && o.executor.None? && o.stream.None? ==> err == DeletePodError(o.delete)
    ensures RunPod.DeleteCount(calls) ==
      (if (Verdict(o.polls) == Ready && o.executor.None?) || RunPod.BackedOff(o.polls) then 1 else 0)
    ensures forall i :: 0 <= i < |calls| ==> !calls[i].CreateConfigMap?
  {
    var werr, wcalls := WaitForPodRunning(podName, o.polls, o.waitDelete);
    if werr.Some? {
      return werr, wcalls;
    }
    err, calls := Session(podName, v, o);
    if calls != [] {
      RunPod.NoDeletes([calls[0]]);
      RunPod.DeleteCountAppend([calls[0]], [calls[1]]);
      assert calls == [calls[0]] + [calls[1]];
    } else {
      RunPod.NoDeletes(calls);
    }
  }

  /**
   * ExecPod over the API's answers: the calls it makes, in order, and the
   * error it returns. Its halves are CreateExecObjects and Session.
   */
  method ExecPod(namespace: string, podName: string, v: EngineView, o: ExecOutcomes)
    returns (err: Option<Error>, calls: seq<Call>)
    ensures err.None? <==> SessionStarted(o) && o.stream.None? && o.delete.None?
    // a failed creation returns its own error, after the creation calls made so far
    ensures !ObjectsCreated(o) ==> err == CreationError(o)
    ensures o.clientset.Some? ==> calls == []
    ensures o.clientset.None? ==>
      |calls| >= 1 && calls[0].CreatePod? && IsExecPodSpec(calls[0].pod, podName, namespace, v)
    ensures o.clientset.None? && o.createPod.Failure? ==> |calls| == 1
    ensures o.clientset.None? && o.createPod.Success? && o.createSecret.Some? ==>
      IsExecSetup(calls, namespace, podName, v, o.createPod.value)
    ensures ObjectsCreated(o) ==>
      |calls| >= 2 && IsExecSetup(calls[..2], namespace, podName, v, o.createPod.value)
    ensures forall i :: 0 <= i < |calls| ==> !calls[i].CreateConfigMap?
    // the wait's own error is returned unchanged, after its cleanup delete if any
    ensures ObjectsCreated(o) && Verdict(o.polls) != Ready ==>
      calls[2..] == WaitCalls(podName, Verdict(o.polls))
      && err == WaitError(Verdict(o.polls), o.waitDelete)
    // an executor that cannot be built leaves the pod in place
    ensures ObjectsCreated(o) && Verdict(o.polls) == Ready && o.executor.Some? ==>
      |calls| == 2 && err == Some(Wrapped("failed to create executor: ", o.executor.value))
    // the session, then exactly one foreground delete however it ended
    ensures SessionStarted(o) ==>
      |calls| == 4 && calls[2] == Exec(podName, ExecOptionsFor(v)) && calls[3] == ForegroundDelete(podName)
    ensures SessionStarted(o) && o.stream.Some? && o.delete.Some? ==>
      err == Some(WrappedPair("failed to execute command: ", o.stream.value,
        ", failed to delete pod: ", Wrapped("failed to delete pod: ", o.delete.value)))
    ensures SessionStarted(o) && o.stream.Some? && o.delete.None? ==>
      err == Some(Wrapped("failed to execute command: ", o.stream.value))
    ensures SessionStarted(o) && o.stream.None? ==> err == DeletePodError(o.delete)
    ensures RunPod.DeleteCount(calls) ==
      (if SessionStarted(o) || (ObjectsCreated(o) && RunPod.BackedOff(o.polls)) then 1 else 0)
  {
    err, calls := CreateExecObjects(namespace, podName, v, o);
    if err.Some? {
      return err, calls;
    }
    ghost var setup := calls;
    assert setup[..2] == setup;
    var aerr, acalls := AfterCreation(podName, v, o);
    RunPod.DeleteCountAppend(calls, acalls);
    calls := calls + acalls;
    assert calls[..2] == setup;
    assert calls[2..] == acalls;
    return aerr, calls;
  }
}
