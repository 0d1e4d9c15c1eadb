/** Daily workloads: which verification mode each canonical suite may be given. */
module Workloads {

  datatype Mode = Deferred | Quick | Journey | Full

  type Workload = map<string, Mode>

  const SUITES: set<string> := {
    "docs_static", "portal", "ci_contract", "core_ubuntu", "core_asan", "core_coverage", "core_macos", "web_toolchain",
    "web_runtime_host", "creator", "web_runtime_lab", "deploy_contract", "package", "core_tsan_stress", "core_release_stress"
  }

  predicate Allowed(suite: string, mode: Mode) {
    match mode
    case Deferred => suite in SUITES
    case Full => suite in SUITES
    case Quick => suite in {"core_ubuntu", "ci_contract", "creator"}
    case Journey => suite in {"creator", "web_runtime_host"}
  }

  /** A workload names every selected suite, each with a mode of its own. */
  predicate Fits(workload: Workload, selected: set<string>) {
    && workload.Keys == selected
    && forall suite <- workload :: Allowed(suite, workload[suite])
  }
}
