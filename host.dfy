/** `local_health`: threshold warnings on the local machine's CPU, memory and disk readings. */
module Host {
  import opened Alerts

  /** One psutil reading: percentages and the uptime in whole seconds. */
  datatype Reading = Reading(cpu: real, memory: real, disk: real, uptimeSeconds: int)

  /** LOCAL_CPU_WARN, LOCAL_MEM_WARN and LOCAL_DISK_WARN. */
  datatype Thresholds = Thresholds(cpu: real, memory: real, disk: real)

  const DefaultThresholds := Thresholds(85.0, 90.0, 90.0)

  datatype LocalSnapshot = LocalSnapshot(
    cpuPercent: real, memoryPercent: real, diskPercent: real,
    uptimeSeconds: int, warnings: seq<Warning>)

  /** Position of a local warning in the fixed order CPU, memory, disk. */
  function Rank(w: Warning): nat {
    match w
    case HighCpu(_, _) => 0
    case HighMemory(_, _) => 1
    case HighDisk(_, _) => 2
    case _ => 3
  }

  /** The local warnings in their fixed order: one per reading at or over its threshold. */
  function LocalWarnings(r: Reading, t: Thresholds): seq<Warning> {
    (if r.cpu >= t.cpu then [HighCpu(r.cpu, t.cpu)] else [])
    + (if r.memory >= t.memory then [HighMemory(r.memory, t.memory)] else [])
    + (if r.disk >= t.disk then [HighDisk(r.disk, t.disk)] else [])
  }

  /** Each local warning is raised exactly when its reading reaches the threshold, in CPU, memory, disk order. */
  lemma LocalWarningsFacts(r: Reading, t: Thresholds)
    ensures var ws := LocalWarnings(r, t);
      && (HighCpu(r.cpu, t.cpu) in ws <==> r.cpu >= t.cpu)
      && (HighMemory(r.memory, t.memory) in ws <==> r.memory >= t.memory)
      && (HighDisk(r.disk, t.disk) in ws <==> r.disk >= t.disk)
      && (forall i :: 0 <= i < |ws| ==> Rank(ws[i]) < 3)
      && (forall i, j :: 0 <= i < j < |ws| ==> Rank(ws[i]) < Rank(ws[j]))
      && (forall i :: 0 <= i < |ws| ==>
            ws[i] == HighCpu(r.cpu, t.cpu) || ws[i] == HighMemory(r.memory, t.memory) || ws[i] == HighDisk(r.disk, t.disk))
      && |ws| <= 3
      && (ws == [] <==> r.cpu < t.cpu && r.memory < t.memory && r.disk < t.disk)
  {
  }

  /** The `local` object of the health report: the readings as measured and their warnings. */
  function LocalSnapshotOf(r: Reading, t: Thresholds): LocalSnapshot {
    LocalSnapshot(r.cpu, r.memory, r.disk, r.uptimeSeconds, LocalWarnings(r, t))
  }

  /** `local_health`: the warnings appended one reading at a time, in CPU, memory, disk order. */
  method LocalHealth(r: Reading, t: Thresholds) returns (snap: LocalSnapshot)
    ensures snap == LocalSnapshotOf(r, t)
    ensures snap.cpuPercent == r.cpu && snap.memoryPercent == r.memory && snap.diskPercent == r.disk
    ensures snap.uptimeSeconds == r.uptimeSeconds
    ensures HighCpu(r.cpu, t.cpu) in snap.warnings <==> r.cpu >= t.cpu
    ensures HighMemory(r.memory, t.memory) in snap.warnings <==> r.memory >= t.memory
    ensures HighDisk(r.disk, t.disk) in snap.warnings <==> r.disk >= t.disk
    ensures forall i :: 0 <= i < |snap.warnings| ==> Rank(snap.warnings[i]) < 3
    ensures forall i, j :: 0 <= i < j < |snap.warnings| ==> Rank(snap.warnings[i]) < Rank(snap.warnings[j])
    ensures |snap.warnings| <= 3
    ensures snap.warnings == [] <==> r.cpu < t.cpu && r.memory < t.memory && r.disk < t.disk
    ensures forall i :: 0 <= i < |snap.warnings| ==>
              || snap.warnings[i] == HighCpu(r.cpu, t.cpu)
              || snap.warnings[i] == HighMemory(r.memory, t.memory)
              || snap.warnings[i] == HighDisk(r.disk, t.disk)
  {
    var warnings: seq<Warning> := [];
    if r.cpu >= t.cpu {
      warnings := warnings + [HighCpu(r.cpu, t.cpu)];
    }
    if r.memory >= t.memory {
      warnings := warnings + [HighMemory(r.memory, t.memory)];
    }
    if r.disk >= t.disk {
      warnings := warnings + [HighDisk(r.disk, t.disk)];
    }
    assert warnings == LocalWarnings(r, t);
    LocalWarningsFacts(r, t);
    snap := LocalSnapshot(r.cpu, r.memory, r.disk, r.uptimeSeconds, warnings);
  }
}
