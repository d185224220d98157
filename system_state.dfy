/** The per-cycle snapshot of the operating regime that the monitoring side hands to the coordinator. */
module SystemStates {

  datatype SystemState = SystemState(
    workloadIntensity: real,
    cpuUtilization: real,
    memoryUtilization: real,
    recentFpr: real,
    recentFnr: real,
    deploymentActive: bool,
    timestamp: real)
}
