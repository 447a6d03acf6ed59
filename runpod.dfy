/**
 * The batch run: a pod running the engine's batch command against the query
 * delivered in a ConfigMap, its credentials in a basic-auth secret, waited
 * for, read for its logs and deleted.
 */
module RunPod {
  import opened Wrappers
  import opened DbCommander
  import opened Kube
  import opened Engines
  import opened Pod
  import Mysql
  import SqlServer

  const QueryVolume := "query-volume"

  function ConfigMapName(podName: string): string {
    podName + "-cm"
  }

  /**
   * The run pod: one container named by the engine tag, running the batch
   * command through /bin/sh, with the ConfigMap mounted at /sql, the secret
   * variables followed by TZ, and restart policy Never.
   */
  predicate IsRunPodSpec(pod: Kube.Pod, podName: string, namespace: string, cmName: string, v: EngineView) {
    pod.meta == ObjectMeta(podName, namespace, "", [])
    && pod.spec.volumes == [Volume(QueryVolume, cmName)]
    && pod.spec.restartPolicy == Never
    && |pod.spec.containers| == 1
    && var ct := pod.spec.containers[0];
      ct.name == v.commandType.String() && ct.image == v.containerImage
      && ct.volumeMounts == [VolumeMount(QueryVolume, QueryMountPath)]
      && |ct.env| >= 1 && ct.env[|ct.env| - 1] == TimeZoneVar
      && IsSecretEnv(ct.env[..|ct.env| - 1], podName, v.secretEnvKV)
      && ct.command == ["/bin/sh", "-c", v.command]
  }

  /** createRunPodSpec. */
  method CreateRunPodSpec(podName: string, namespace: string, cmName: string, v: EngineView)
    returns (pod: Kube.Pod)
    ensures IsRunPodSpec(pod, podName, namespace, cmName, v)
  {
    var env := GenerateSecretEnvVars(podName, v.secretEnvKV);
    var container := Container(v.commandType.String(), v.containerImage,
      [VolumeMount(QueryVolume, QueryMountPath)], env + [TimeZoneVar], ["/bin/sh", "-c", v.command]);
    pod := Kube.Pod(ObjectMeta(podName, namespace, "", []),
      PodSpec([Volume(QueryVolume, cmName)], [container], Never));
    assert container.env[..|container.env| - 1] == env;
  }

  /** createConfigMapSpec: the data, owned by the pod. */
  function CreateConfigMapSpec(cmName: string, namespace: string, pod: Kube.Pod, data: map<string, string>): ConfigMap {
    ConfigMap(ObjectMeta(cmName, namespace, "", [NewControllerRef(pod)]), data)
  }

  /** The pod as the API server returns it from Create: the spec with its uid assigned. */
  function Created(spec: Kube.Pod, uid: string): Kube.Pod {
    spec.(meta := spec.meta.(uid := uid))
  }

  /**
   * The ConfigMap RunPod creates is the one the run pod mounts, it holds the
   * query under the key the batch command reads, and it goes with the pod.
   */
  lemma QueryReachesBatchCommand(pod: Kube.Pod, uid: string, podName: string, namespace: string, v: EngineView)
    requires IsRunPodSpec(pod, podName, namespace, ConfigMapName(podName), v)
    ensures var cm := CreateConfigMapSpec(ConfigMapName(podName), namespace, Created(pod, uid), map[QueryKey := v.query]);
      pod.spec.volumes[0].configMapName == cm.meta.name
      && pod.spec.containers[0].volumeMounts[0].name == pod.spec.volumes[0].name
      && cm.data.Keys == {QueryKey} && cm.data[QueryKey] == v.query
      && ControlledBy(cm.meta, Created(pod, uid))
      && pod.spec.containers[0].volumeMounts[0].mountPath + "/" + QueryKey == Mysql.QueryFile
      && pod.spec.containers[0].volumeMounts[0].mountPath + "/" + QueryKey == SqlServer.QueryFile
  {
    var cm := CreateConfigMapSpec(ConfigMapName(podName), namespace, Created(pod, uid), map[QueryKey := v.query]);
    assert NewControllerRef(Created(pod, uid)) in cm.meta.ownerReferences;
    QueryFileIsMountedKey();
  }

  /** Every secret variable of the run pod reads a key of the secret RunPod creates beside it. */
  lemma RunPodEnvReadsItsSecret(pod: Kube.Pod, uid: string, podName: string, namespace: string, v: EngineView)
    requires IsRunPodSpec(pod, podName, namespace, ConfigMapName(podName), v)
    requires ReadsBasicAuthKeys(v.secretEnvKV)
    ensures var env := pod.spec.containers[0].env;
      var s := CreateBasicAuthSecretSpec(SecretName(podName), namespace, v.connectInfo, Created(pod, uid));
      forall i :: 0 <= i < |env| - 1 ==>
        env[i].source.SecretKeyRef? && env[i].source.secretName == s.meta.name && env[i].source.key in s.stringData
  {
    var env := pod.spec.containers[0].env;
    SecretEnvReadsSecret(env[..|env| - 1], podName, v.secretEnvKV, namespace, v.connectInfo, Created(pod, uid));
    forall i | 0 <= i < |env| - 1
      ensures env[i] == env[..|env| - 1][i]
    {
    }
  }

  /** The API's answers to the calls RunPod makes, in the order it makes them. */
  datatype RunOutcomes = RunOutcomes(
    clientset: Option<Error>,
    createPod: Result<string, Error>,     // the uid the server assigns, or the failure
    createConfigMap: Option<Error>,
    createSecret: Option<Error>,
    polls: seq<PollObservation>,          // the readiness observations before the deadline
    waitDelete: Option<Error>,            // the cleanup delete after an image-pull back-off
    logStream: Result<string, Error>,     // what the log reader gathered, or the stream failure
    delete: Option<Error>)

  /** The pod, the ConfigMap and the secret were all created. */
  predicate ObjectsCreated(o: RunOutcomes) {
    o.clientset.None? && o.createPod.Success? && o.createConfigMap.None? && o.createSecret.None?
  }

  predicate BackedOff(polls: seq<PollObservation>) {
    Verdict(polls).StoppedBy? && Verdict(polls).err.ImagePullBackOffError?
  }

  /** The run got as far as its final delete: created, ready, logs opened. */
  predicate ReachesTeardown(o: RunOutcomes) {
    ObjectsCreated(o) && Verdict(o.polls) == Ready && o.logStream.Success?
  }

  function DeleteCount(calls: seq<Call>): nat {
    if calls == [] then 0
    else (if calls[0].DeletePod? then 1 else 0) + DeleteCount(calls[1..])
  }

  lemma {:induction false} DeleteCountAppend(a: seq<Call>, b: seq<Call>)
    ensures DeleteCount(a + b) == DeleteCount(a) + DeleteCount(b)
    decreases |a|
  {
    if a == [] {
      assert a + b == b;
    } else {
      DeleteCountAppend(a[1..], b);
      assert (a + b)[1..] == a[1..] + b;
    }
  }

  lemma {:induction false} NoDeletes(calls: seq<Call>)
    requires forall i :: 0 <= i < |calls| ==> !calls[i].DeletePod?
    ensures DeleteCount(calls) == 0
    decreases |calls|
  {
    if calls != [] {
      NoDeletes(calls[1..]);
    }
  }

  /**
   * The three creation calls of a run whose pod got `uid`: the run pod,
   * its ConfigMap and its secret, the latter two built from the created pod.
   */
  predicate IsRunSetup(calls: seq<Call>, namespace: string, podName: string, v: EngineView, uid: string) {
    |calls| == 3 && calls[0].CreatePod?
    && IsRunPodSpec(calls[0].pod, podName, namespace, ConfigMapName(podName), v)
    && calls[1] == CreateConfigMap(CreateConfigMapSpec(ConfigMapName(podName), namespace,
         Created(calls[0].pod, uid), map[QueryKey := v.query]))
    && calls[2] == CreateSecret(CreateBasicAuthSecretSpec(SecretName(podName), namespace,
         v.connectInfo, Created(calls[0].pod, uid)))
  }

  /**
   * The error RunPod returns when a creation call fails: the first failure
   * among the client, the pod, the ConfigMap and the secret, wrapped with
   * what was being created.
   */
  function CreationError(o: RunOutcomes): (r: Option<Error>)
    ensures r.None? <==> ObjectsCreated(o)
    ensures o.clientset.Some? ==> r == Some(Wrapped("failed to create clientset: ", o.clientset.value))
    ensures o.clientset.None? && o.createPod.Failure? ==>
      r == Some(Wrapped("failed to create pod: ", o.createPod.error))
    ensures o.clientset.None? && o.createPod.Success? && o.createConfigMap.Some? ==>
      r == Some(Wrapped("failed to create configmap: ", o.createConfigMap.value))
    ensures o.clientset.None? && o.createPod.Success? && o.createConfigMap.None? && o.createSecret.Some? ==>
      r == Some(Wrapped("failed to create secret: ", o.createSecret.value))
  {
    if o.clientset.Some? then Some(Wrapped("failed to create clientset: ", o.clientset.value))
    else if o.createPod.Failure? then Some(Wrapped("failed to create pod: ", o.createPod.error))
    else if o.createConfigMap.Some? then Some(Wrapped("failed to create configmap: ", o.createConfigMap.value))
    else if o.createSecret.Some? then Some(Wrapped("failed to create secret: ", o.createSecret.value))
    else None
  }

  /** The creation half of RunPod: pod, then ConfigMap, then secret, each built from the created pod. */
  method CreateRunObjects(namespace: string, podName: string, v: EngineView, o: RunOutcomes)
    returns (err: Option<Error>, calls: seq<Call>)
    ensures err == CreationError(o)
    ensures DeleteCount(calls) == 0
    ensures o.clientset.Some? ==>
      calls == [] && err == Some(Wrapped("failed to create clientset: ", o.clientset.value))
    ensures o.clientset.None? ==>
      |calls| >= 1 && calls[0].CreatePod?
      && IsRunPodSpec(calls[0].pod, podName, namespace, ConfigMapName(podName), v)
    ensures o.clientset.None? && o.createPod.Failure? ==>
      |calls| == 1 && err == Some(Wrapped("failed to create pod: ", o.createPod.error))
    ensures o.clientset.None? && o.createPod.Success? ==>
      |calls| >= 2 && calls[1] == CreateConfigMap(CreateConfigMapSpec(ConfigMapName(podName), namespace,
        Created(calls[0].pod, o.createPod.value), map[QueryKey := v.query]))
    ensures o.clientset.None? && o.createPod.Success? && o.createConfigMap.Some? ==>
      |calls| == 2 && err == Some(Wrapped("failed to create configmap: ", o.createConfigMap.value))
    ensures o.clientset.None? && o.createPod.Success? && o.createConfigMap.None? ==>
      |calls| == 3 && calls[2] == CreateSecret(CreateBasicAuthSecretSpec(SecretName(podName), namespace,
        v.connectInfo, Created(calls[0].pod, o.createPod.value)))
    ensures o.clientset.None? && o.createPod.Success? && o.createConfigMap.None? && o.createSecret.Some? ==>
      err == Some(Wrapped("failed to create secret: ", o.createSecret.value))
    ensures o.clientset.None? && o.createPod.Success? && o.createConfigMap.None? ==>
      IsRunSetup(calls, namespace, podName, v, o.createPod.value)
  {
    if o.clientset.Some? {
      return Some(Wrapped("failed to create clientset: ", o.clientset.value)), [];
    }
    var cmName := ConfigMapName(podName);
    var podSpec := CreateRunPodSpec(podName, namespace, cmName, v);
    calls := [CreatePod(podSpec)];
    if o.createPod.Failure? {
      NoDeletes(calls);
      return Some(Wrapped("failed to create pod: ", o.createPod.error)), calls;
    }
    var pod := Created(podSpec, o.createPod.value);
    var configMap := CreateConfigMapSpec(cmName, namespace, pod, map[QueryKey := v.query]);
    calls := calls + [CreateConfigMap(configMap)];
    if o.createConfigMap.Some? {
      NoDeletes(calls);
      return Some(Wrapped("failed to create configmap: ", o.createConfigMap.value)), calls;
    }
    var secret := CreateBasicAuthSecretSpec(SecretName(podName), namespace, v.connectInfo, pod);
    calls := calls + [CreateSecret(secret)];
    NoDeletes(calls);
    if o.createSecret.Some? {
      return Some(Wrapped("failed to create secret: ", o.createSecret.value)), calls;
    }
    return None, calls;
  }

  /**
   * RunPod over the API's answers: the calls it makes, in order, and the
   * logs or the error it returns. The creation half is CreateRunObjects.
   */
  method RunPod(namespace: string, podName: string, v: EngineView, o: RunOutcomes)
    returns (out: Result<string, Error>, calls: seq<Call>)
    ensures out.Success? <==> ReachesTeardown(o) && o.delete.None?
    ensures out.Success? ==> out.value == o.logStream.value
    // a failed creation returns its own error, after the creation calls made so far
    ensures !ObjectsCreated(o) ==> out == Failure(CreationError(o).value)
    ensures o.clientset.Some? ==> calls == []
    ensures o.clientset.None? ==>
      |calls| >= 1 && calls[0].CreatePod?
      && IsRunPodSpec(calls[0].pod, podName, namespace, ConfigMapName(podName), v)
    ensures o.clientset.None? && o.createPod.Failure? ==> |calls| == 1
    ensures o.clientset.None? && o.createPod.Success? && o.createConfigMap.Some? ==>
      |calls| == 2 && calls[1] == CreateConfigMap(CreateConfigMapSpec(ConfigMapName(podName), namespace,
        Created(calls[0].pod, o.createPod.value), map[QueryKey := v.query]))
    ensures o.clientset.None? && o.createPod.Success? && o.createConfigMap.None? && o.createSecret.Some? ==>
      IsRunSetup(calls, namespace, podName, v, o.createPod.value)
    ensures ObjectsCreated(o) ==>
      |calls| >= 3 && IsRunSetup(calls[..3], namespace, podName, v, o.createPod.value)
    // the wait's own error is returned unchanged, after its cleanup delete if any
    ensures ObjectsCreated(o) && Verdict(o.polls) != Ready ==>
      calls[3..] == WaitCalls(podName, Verdict(o.polls))
      && out == Failure(WaitError(Verdict(o.polls), o.waitDelete).value)
    ensures ObjectsCreated(o) && Verdict(o.polls) == Ready ==> |calls| >= 4 && calls[3] == StreamLogs(podName)
    ensures ObjectsCreated(o) && Verdict(o.polls) == Ready && o.logStream.Failure? ==>
      |calls| == 4 && out == Failure(Wrapped("failed to get pod logs: ", o.logStream.error))
    // teardown: one foreground delete; its failure replaces the logs, wrapped twice
    ensures ReachesTeardown(o) ==> |calls| == 5 && calls[4] == ForegroundDelete(podName)
    ensures ReachesTeardown(o) && o.delete.Some? ==>
      out == Failure(Wrapped("failed to delete pod: ", Wrapped("failed to delete pod: ", o.delete.value)))
    // a failure before teardown leaves what was created in place, except after a back-off
    ensures DeleteCount(calls) == (if ReachesTeardown(o) || (ObjectsCreated(o) && BackedOff(o.polls)) then 1 else 0)
  {
    var err;
    err, calls := CreateRunObjects(namespace, podName, v, o);
    if err.Some? {
      return Failure(err.value), calls;
    }
    ghost var setup := calls;
    assert setup[..3] == setup;
    var werr, wcalls := WaitForPodRunning(podName, o.polls, o.waitDelete);
    DeleteCountAppend(calls, wcalls);
    calls := calls + wcalls;
    if werr.Some? {
      return Failure(werr.value), calls;
    }
    DeleteCountAppend(calls, [StreamLogs(podName)]);
    calls := calls + [StreamLogs(podName)];
    if o.logStream.Failure? {
      return Failure(Wrapped("failed to get pod logs: ", o.logStream.error)), calls;
    }
    DeleteCountAppend(calls, [ForegroundDelete(podName)]);
    calls := calls + [ForegroundDelete(podName)];
    var derr := DeletePodError(o.delete);
    if derr.Some? {
      return Failure(Wrapped("failed to delete pod: ", derr.value)), calls;
    }
    return Success(o.logStream.value), calls;
  }
}
