/** internal/config/sidecar.go and internal/config/annotation: what the injector adds
    to a pod. Only structure and cross-references are modelled; the container image and
    arguments are kept as the literal values. */
module Sidecar {
  import opened Wrappers

  const MaestroNamespace: string := "maestro.io"
  const SidecarNamespace: string := "sidecar." + MaestroNamespace
  const ServiceNameAnnotation: string := MaestroNamespace + "/serviceName"
  const SidecarInjectAnnotation: string := SidecarNamespace + "/inject"
  const SidecarStatusAnnotation: string := SidecarNamespace + "/status"

  /** A Go map[string]string that may be nil. */
  type StringMap = Option<map<string, string>>

  /** Reading a key of a Go map: the value, or "" when absent or the map is nil. */
  function Lookup(m: StringMap, key: string): (v: string)
    ensures m.Some? && key in m.value ==> v == m.value[key]
    ensures (m.None? || key !in m.value) ==> v == ""
  {
    if m.Some? && key in m.value then m.value[key] else ""
  }

  datatype EnvVar = EnvVar(name: string, fieldPath: string)
  datatype ContainerPort = ContainerPort(name: string, containerPort: int)
  datatype VolumeMount = VolumeMount(name: string, mountPath: string, readOnly: bool)
  datatype SecurityContext = SecurityContext(runAsNonRoot: bool, runAsUser: int, runAsGroup: int,
                                             allowPrivilegeEscalation: bool, readOnlyRootFilesystem: bool,
                                             seccompProfile: string, dropCapabilities: seq<string>)
  datatype Container = Container(name: string, image: string, imagePullPolicy: string,
                                 restartPolicy: Option<string>, args: seq<string>, env: seq<EnvVar>,
                                 ports: seq<ContainerPort>, securityContext: Option<SecurityContext>,
                                 volumeMounts: seq<VolumeMount>)

  /** constants.SpiffeCsiDriver; internal/config/constants is not part of this model. */
  datatype CsiDriver = SpiffeCsiDriver

  datatype VolumeSource = ConfigMapVolume(configMapName: string) | CsiVolume(driver: CsiDriver, readOnly: bool)
  datatype Volume = Volume(name: string, source: VolumeSource)

  datatype SidecarConfig = SidecarConfig(initContainers: seq<Container>, containers: seq<Container>,
                                         volumes: seq<Volume>)

  const ProxyContainerName: string := "proxy"
  const EnvoyConfigVolume: string := "envoy-config"
  const SpiffeWorkloadApiVolume: string := "spiffe-workload-api"
  const NonRootId: int := 65532

  function ProxyContainer(): (c: Container)
    ensures c.name == ProxyContainerName && c.restartPolicy == Some("Always")
    ensures c.securityContext.Some?
    ensures var sc := c.securityContext.value;
      sc.runAsNonRoot && sc.runAsUser == NonRootId && sc.runAsGroup == NonRootId &&
      !sc.allowPrivilegeEscalation && sc.readOnlyRootFilesystem && sc.dropCapabilities == ["ALL"]
    ensures c.ports == [ContainerPort("admin", 9901), ContainerPort("http", 18080)]
    ensures |c.volumeMounts| == 2 && c.volumeMounts[0].name == EnvoyConfigVolume &&
      c.volumeMounts[1].name == SpiffeWorkloadApiVolume
    ensures forall i :: 0 <= i < |c.volumeMounts| ==> c.volumeMounts[i].readOnly
  {
    Container(
      ProxyContainerName, "envoyproxy/envoy:v1.32.4", "Always", Some("Always"),
      ["--service-cluster", "$(SERVICE_CLUSTER)", "--service-node", "$(SERVICE_NODE)",
       "--config-path", "/etc/envoy/envoy.yaml", "--log-level", "warn"],
      [EnvVar("SERVICE_CLUSTER", "spec.serviceAccountName"), EnvVar("SERVICE_NODE", "metadata.name")],
      [ContainerPort("admin", 9901), ContainerPort("http", 18080)],
      Some(SecurityContext(true, NonRootId, NonRootId, false, true, "RuntimeDefault", ["ALL"])),
      [VolumeMount(EnvoyConfigVolume, "/var/envoy", true), VolumeMount(SpiffeWorkloadApiVolume, "/spiffe-workload-api", true)])
  }

  /** fmt.Sprintf("%s-envoy-bootstrap", serviceName). */
  function BootstrapConfigMapName(serviceName: string): (r: string)
    ensures r == serviceName + "-envoy-bootstrap"
  {
    serviceName + "-envoy-bootstrap"
  }

  function ProxyVolumes(serviceName: string): (vs: seq<Volume>)
    ensures |vs| == 2
    ensures vs[0] == Volume(EnvoyConfigVolume, ConfigMapVolume(BootstrapConfigMapName(serviceName)))
    ensures vs[1] == Volume(SpiffeWorkloadApiVolume, CsiVolume(SpiffeCsiDriver, true))
  {
    [Volume(EnvoyConfigVolume, ConfigMapVolume(BootstrapConfigMapName(serviceName))),
     Volume(SpiffeWorkloadApiVolume, CsiVolume(SpiffeCsiDriver, true))]
  }

  function NewSidecarConfig(annotations: StringMap): (sc: SidecarConfig)
    ensures sc.initContainers == [ProxyContainer()] && sc.containers == []
    ensures sc.volumes == ProxyVolumes(Lookup(annotations, ServiceNameAnnotation))
  {
    var serviceName := Lookup(annotations, ServiceNameAnnotation);
    SidecarConfig([] + [ProxyContainer()], [], [] + ProxyVolumes(serviceName))
  }

  /** Every volume the proxy container mounts is one of the volumes the config adds, and
      the config volume names the service's bootstrap ConfigMap. */
  lemma MountsReferenceVolumes(annotations: StringMap)
    ensures var sc := NewSidecarConfig(annotations);
      forall i :: 0 <= i < |sc.initContainers[0].volumeMounts| ==>
        exists j :: 0 <= j < |sc.volumes| && sc.volumes[j].name == sc.initContainers[0].volumeMounts[i].name
    ensures NewSidecarConfig(annotations).volumes[0].source.configMapName ==
      Lookup(annotations, ServiceNameAnnotation) + "-envoy-bootstrap"
  {
    var sc := NewSidecarConfig(annotations);
    var mounts := sc.initContainers[0].volumeMounts;
    assert mounts[0].name == sc.volumes[0].name;
    assert mounts[1].name == sc.volumes[1].name;
  }

  /** Without the serviceName annotation the ConfigMap reference is "-envoy-bootstrap". */
  lemma MissingServiceName(annotations: StringMap)
    requires annotations.None? || ServiceNameAnnotation !in annotations.value
    ensures NewSidecarConfig(annotations).volumes[0].source.configMapName == "-envoy-bootstrap"
  {
  }
}
