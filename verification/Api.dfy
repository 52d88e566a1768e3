/** The API objects the operator works on, and the parts of both reconcilers that only compute. */
module Api {
  import opened Text
  import opened Ledger
  import opened Selection
  import SysctlConf
  import ScriptConf

  /** Which of the two controllers is meant, and the content hash both sides compute. */
  datatype Params = Params(kind: Kind, hash: string -> string)

  /** The fields of a SysctlProfile's or a ScriptProfile's spec that the code reads. */
  datatype Spec =
    | SysctlSpec(sysctls: seq<SysctlConf.Sysctl>, selector: Selector, driftCheck: string)
    | ScriptSpec(scripts: seq<ScriptConf.Script>, selector: Selector)

  function KindOf(spec: Spec): Kind {
    if spec.SysctlSpec? then SysctlProfile else ScriptProfile
  }

  /** The content of the profile's ConfigMap. */
  function Render(spec: Spec): string {
    match spec
    case SysctlSpec(sysctls, _, _) => SysctlConf.Rendered(sysctls)
    case ScriptSpec(scripts, _) => ScriptConf.Rendered(scripts)
  }

  /** The Ready condition: its reason and the generation it was set for. */
  datatype Ready = Ready(complete: bool, generation: nat)

  datatype Status = Status(
    observedHash: string,
    teardownHash: string,
    desiredNodes: Int32,
    ready: Option<Ready>,
    book: Book
  )

  const EMPTY_STATUS := Status("", "", 0, None, EMPTY_BOOK)

  /** A profile object; the uid tells apart objects created under the same name. */
  datatype Obj = Obj(uid: nat, generation: nat, spec: Spec, deleting: bool, finalizer: bool, status: Status)

  /** A resource with its controller reference. */
  datatype Owned<T> = Owned(owner: nat, data: T)

  /** The parts of the DaemonSet and of the CronJob that matter here. */
  datatype Template = Template(hash: string, placement: Labels)
  datatype CronJob = CronJob(schedule: string, hash: string)

  predicate WantsCronJob(spec: Spec) {
    spec.SysctlSpec? && spec.driftCheck != ""
  }

  /** The status a pass writes once it has decided: the ledger is not touched. */
  function Decided(o: Obj, hash: string, selected: set<string>, complete: bool): Status {
    o.status.(
      observedHash := hash,
      teardownHash := if complete then hash else o.status.teardownHash,
      desiredNodes := Wrap(|selected|),
      ready := Some(Ready(complete, o.generation)))
  }
}
