/** The parts of a Kubernetes pod object that the pod controller reads or writes. */
module Pods {

  datatype Option<+T> = None | Some(value: T)

  datatype Phase = Pending | Running | Succeeded | Failed | Unknown

  datatype Termination = Termination(exitCode: int, reason: string, message: string,
                                     startedAt: Option<int>, finishedAt: int, containerID: string)

  /** A nil pointer of the API type is `None`; `waiting` only matters as present or absent. */
  datatype ContainerState = ContainerState(running: Option<int>, waiting: bool, terminated: Option<Termination>)

  datatype ContainerStatus = ContainerStatus(name: string, containerID: string, state: ContainerState)

  datatype PodStatus = PodStatus(phase: Phase, reason: string, message: string,
                                 containerStatuses: seq<ContainerStatus>)

  /** `rest` stands for every spec field that the controller compares only as a whole. */
  datatype PodSpec = PodSpec(images: seq<string>, initImages: seq<string>,
                             activeDeadlineSeconds: Option<int>, tolerations: seq<string>, rest: string)

  datatype Pod = Pod(uid: string, resourceVersion: string,
                     labels: map<string, string>, annotations: map<string, string>,
                     deletionTimestamp: Option<int>, deletionGracePeriodSeconds: Option<int>,
                     spec: PodSpec, status: PodStatus)

  /** shouldSkipPodStatusUpdate: the pod has reached a terminal phase. */
  predicate IsTerminal(status: PodStatus) {
    status.phase == Succeeded || status.phase == Failed
  }

  /** The list without its element at `i`. */
  function Without<T>(s: seq<T>, i: nat): seq<T>
    requires i < |s|
  {
    s[..i] + s[i + 1..]
  }
}
