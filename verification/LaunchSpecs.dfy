/** The launch specs the supervisor builds (sandbox/server.py), and what arrives
    of them at the other program (sandbox/docker_shim.py). */
module LaunchSpecs {
  import opened Prelude
  import opened DockerArgv

  datatype RuntimeProfile = RuntimeProfile(name: string, nanoCpus: nat, memoryBytes: nat, pidsLimit: nat, tmpfsOptions: string)

  const BASIC: RuntimeProfile :=
    RuntimeProfile("python-basic-v1", 1_000_000_000, 402_653_184, 32, "rw,noexec,nosuid,nodev,size=64m")

  const DATA: RuntimeProfile :=
    RuntimeProfile("python-data-v1", 2_000_000_000, 805_306_368, 64, "rw,noexec,nosuid,nodev,size=128m")

  /** build_runtime_launch_spec, given the configured image and the encoded run spec. */
  function BuildRuntimeLaunchSpec(image: string, executionId: string, profile: RuntimeProfile, encodedSpec: string): LaunchSpec {
    LaunchSpec(
      "simpagent-python-" + executionId, image, ["python", "/runtime/runner.py"],
      [("HOME", "/workspace"), ("MPLBACKEND", "Agg"), ("MPLCONFIGDIR", "/workspace/.matplotlib"),
       ("PYTHONUNBUFFERED", "1"), ("SIMPAGENT_RUN_SPEC_B64", encodedSpec)],
      [("simpagent.python.execution_id", executionId), ("simpagent.python.profile_name", profile.name)],
      "none", true, "10002:10002", [("/workspace", profile.tmpfsOptions)], ["ALL"], ["no-new-privileges"],
      profile.pidsLimit, profile.memoryBytes, profile.nanoCpus, [], [], [], [])
  }

  lemma LabelsHaveNoEquals(executionId: string, profileName: string)
    ensures KeysFree([("simpagent.python.execution_id", executionId), ("simpagent.python.profile_name", profileName)], '=')
  {
    var a, b := "simpagent.python.execution_id", "simpagent.python.profile_name";
    assert forall i :: 0 <= i < |a| ==> a[i] == '.' || a[i] == '_' || 'a' <= a[i] <= 'z';
    assert forall i :: 0 <= i < |b| ==> b[i] == '.' || b[i] == '_' || 'a' <= b[i] <= 'z';
  }

  /** No network, no capability, no privilege, nothing of the host, a read-only
      root and the profile's own limits. */
  predicate Confined(c: Container, profile: RuntimeProfile) {
    && c.network == Some("none") && c.readOnly && c.user == Some("10002:10002")
    && c.capDrop == ["ALL"] && c.securityOpt == ["no-new-privileges"]
    && c.binds == [] && c.devices == [] && c.dns == [] && c.extraHosts == map[]
    && c.tmpfs == map["/workspace" := profile.tmpfsOptions]
    && c.pids == Some(profile.pidsLimit) && c.memory == Some(profile.memoryBytes) && c.nanoCpus == Some(profile.nanoCpus)
  }

  /** The container is this execution's own: its name and labels say whose it is, it
      runs the runner from the configured image, and is handed the encoded spec. */
  predicate Carries(c: Container, image: string, executionId: string, profile: RuntimeProfile, encodedSpec: string) {
    && c.name == Some("simpagent-python-" + executionId) && c.image == image && c.command == ["python", "/runtime/runner.py"]
    && c.labels == map["simpagent.python.execution_id" := executionId, "simpagent.python.profile_name" := profile.name]
    && c.environment == ["HOME=/workspace", "MPLBACKEND=Agg", "MPLCONFIGDIR=/workspace/.matplotlib", "PYTHONUNBUFFERED=1",
                         "SIMPAGENT_RUN_SPEC_B64=" + encodedSpec]
  }

  lemma SpecIsPrintable(image: string, executionId: string, profile: RuntimeProfile, encodedSpec: string)
    requires profile.nanoCpus % HUNDREDTH == 0
    ensures Printable(BuildRuntimeLaunchSpec(image, executionId, profile, encodedSpec)) <==> !Dashed(image)
  {
    LabelsHaveNoEquals(executionId, profile.name);
    var path := "/workspace";
    assert forall i :: 0 <= i < |path| ==> path[i] == '/' || 'a' <= path[i] <= 'z';
    assert KeysFree([(path, profile.tmpfsOptions)], ':');
  }

  lemma WantedIsConfined(image: string, executionId: string, profile: RuntimeProfile, encodedSpec: string)
    ensures Confined(Wanted(BuildRuntimeLaunchSpec(image, executionId, profile, encodedSpec)), profile)
  {
    var mounts := [("/workspace", profile.tmpfsOptions)];
    assert mounts[..0] == [];
    assert MapOf(mounts[..0]) == map[];
  }

  lemma WantedCarries(image: string, executionId: string, profile: RuntimeProfile, encodedSpec: string)
    ensures Carries(Wanted(BuildRuntimeLaunchSpec(image, executionId, profile, encodedSpec)), image, executionId, profile, encodedSpec)
  {
    var spec := BuildRuntimeLaunchSpec(image, executionId, profile, encodedSpec);
    var id, kind := "simpagent.python.execution_id", "simpagent.python.profile_name";
    assert spec.labels[..1] == [(id, executionId)] && spec.labels[..1][..0] == [];
    assert MapOf([]) == map[] && MapOf(spec.labels[..1]) == map[id := executionId];
    assert id[17] != kind[17];
    EnvironmentPrinted(encodedSpec);
  }

  lemma EnvironmentPrinted(encodedSpec: string)
    ensures Joined([("HOME", "/workspace"), ("MPLBACKEND", "Agg"), ("MPLCONFIGDIR", "/workspace/.matplotlib"),
                    ("PYTHONUNBUFFERED", "1"), ("SIMPAGENT_RUN_SPEC_B64", encodedSpec)], '=')
         == ["HOME=/workspace", "MPLBACKEND=Agg", "MPLCONFIGDIR=/workspace/.matplotlib", "PYTHONUNBUFFERED=1",
             "SIMPAGENT_RUN_SPEC_B64=" + encodedSpec]
  {
    assert "HOME" + ['='] + "/workspace" == "HOME=/workspace";
    assert "MPLBACKEND" + ['='] + "Agg" == "MPLBACKEND=Agg";
    assert "MPLCONFIGDIR" + ['='] + "/workspace/.matplotlib" == "MPLCONFIGDIR=/workspace/.matplotlib";
    assert "PYTHONUNBUFFERED" + ['='] + "1" == "PYTHONUNBUFFERED=1";
    assert "SIMPAGENT_RUN_SPEC_B64" + ['='] == "SIMPAGENT_RUN_SPEC_B64=";
  }

  /** Whatever is executed, the container arrives as it was meant, with its name,
      command and environment, and confined, exactly when the configured image
      does not start like an option. */
  lemma LaunchArrivesConfined(image: string, executionId: string, profile: RuntimeProfile, encodedSpec: string)
    requires profile == BASIC || profile == DATA
    ensures var spec := BuildRuntimeLaunchSpec(image, executionId, profile, encodedSpec);
      && (ParseCreate(Print(spec)) == Ok(Wanted(spec)) <==> !Dashed(image))
      && Confined(Wanted(spec), profile) && Carries(Wanted(spec), image, executionId, profile, encodedSpec)
  {
    SpecIsPrintable(image, executionId, profile, encodedSpec);
    WantedIsConfined(image, executionId, profile, encodedSpec);
    WantedCarries(image, executionId, profile, encodedSpec);
    ParseUndoesPrint(BuildRuntimeLaunchSpec(image, executionId, profile, encodedSpec));
  }
}
