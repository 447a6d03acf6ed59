/**
 * The shapes of the Kubernetes objects the pod code builds and reads,
 * reduced to the fields it sets or inspects.
 */
module Kube {
  import opened Wrappers

  /** metav1.OwnerReference as metav1.NewControllerRef fills it. */
  datatype OwnerReference = OwnerReference(
    apiVersion: string, kind: string, name: string, uid: string,
    controller: bool, blockOwnerDeletion: bool)

  /** metav1.ObjectMeta; `uid` is assigned by the API server on create. */
  datatype ObjectMeta = ObjectMeta(
    name: string, namespace: string, uid: string, ownerReferences: seq<OwnerReference>)

  /** An env var with a literal value or a reference to one key of a secret. */
  datatype EnvSource = Literal(value: string) | SecretKeyRef(secretName: string, key: string)

  datatype EnvVar = EnvVar(name: string, source: EnvSource)

  /** A pod volume backed by a ConfigMap (the only kind the pods use). */
  datatype Volume = Volume(name: string, configMapName: string)

  datatype VolumeMount = VolumeMount(name: string, mountPath: string)

  datatype Container = Container(
    name: string, image: string, volumeMounts: seq<VolumeMount>, env: seq<EnvVar>,
    command: seq<string>)

  datatype RestartPolicy = Always | OnFailure | Never

  datatype PodSpec = PodSpec(
    volumes: seq<Volume>, containers: seq<Container>, restartPolicy: RestartPolicy)

  datatype Pod = Pod(meta: ObjectMeta, spec: PodSpec)

  datatype SecretType = Opaque | BasicAuth

  datatype Secret = Secret(meta: ObjectMeta, secretType: SecretType, stringData: map<string, string>)

  datatype ConfigMap = ConfigMap(meta: ObjectMeta, data: map<string, string>)

  datatype PodPhase = Pending | Running | Succeeded | Failed | PhaseUnknown

  /** The waiting state of a container: why it waits and the kubelet's message. */
  datatype Waiting = Waiting(reason: string, message: string)

  /** A container status; only its waiting state is inspected. */
  datatype ContainerStatus = ContainerStatus(waiting: Option<Waiting>)

  datatype PodStatus = PodStatus(phase: PodPhase, containerStatuses: seq<ContainerStatus>)

  datatype PropagationPolicy = Orphan | Background | Foreground

  datatype DeleteOptions = DeleteOptions(propagationPolicy: Option<PropagationPolicy>)

  /** corev1.PodExecOptions. */
  datatype PodExecOptions = PodExecOptions(
    container: string, command: seq<string>,
    stdin: bool, stdout: bool, stderr: bool, tty: bool)

  /** metav1.NewControllerRef(pod, v1 Pod kind): the pod owns the object and controls it. */
  function NewControllerRef(pod: Pod): OwnerReference {
    OwnerReference("v1", "Pod", pod.meta.name, pod.meta.uid, true, true)
  }
}
