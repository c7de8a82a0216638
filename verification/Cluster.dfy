/** The two API servers as one store of objects, with single-step requests that may fail.

    Functions the controller treats as black boxes (annotation hash, OSC generation, user-data
    generation) are free terms: two results are equal exactly when the arguments are. */
module Cluster {
  import opened Names

  const FINALIZER := "kubermatic.io/cleanup-operating-system-configs"
  const OSP_ANNOTATION := "k8c.io/operating-system-profile"
  const OSP_NAMESPACE_ANNOTATION := "k8c.io/operating-system-profile-namespace"
  /** Defined in the machine-controller SDK, which is not part of this model; any name will do. */
  const REVISION_ANNOTATION := "machinedeployment.clusters.k8s.io/revision"

  datatype Option<+T> = None | Some(value: T)

  type Annotations = map<string, string>

  // ---------------------------------------------------------------- object kinds

  /** Decoded provider config. `flatcarUtility` is None when the Flatcar section does not decode
      and empty when it names no provisioning utility. */
  datatype Provider = Provider(os: string, cloud: string, flatcarUtility: Option<string>)

  /** Machine template: raw text, its lenient decoding, and whether the strict decoder takes it. */
  datatype Template = Template(raw: string, decoded: Option<Provider>, strict: bool)

  datatype MachineDeployment = MachineDeployment(
    annotations: Annotations, template: Template, finalizers: seq<string>, deleting: bool, rv: nat)

  datatype OspSpec = OspSpec(
    version: string, osName: string, utility: string, clouds: seq<string>, units: bool, body: string)

  /** Rotation stamp: revision, hash of the annotations (a free term), profile version. */
  datatype Stamp = Stamp(revision: string, hash: Annotations, version: string)

  /** Everything the generated OSC depends on. */
  datatype OscSpec = OscSpec(
    key: Key, annotations: Annotations, template: Template, osp: OspSpec, token: string, utility: string)

  datatype OSC = OSC(stamp: Stamp, spec: OscSpec)

  /** User data generated for one cloud-config secret. */
  datatype UserData = UserData(key: Key, slot: Slot, spec: OscSpec, template: Template)

  datatype Secret =
    | CloudConfig(stamp: Stamp, data: UserData)
    | Kubeconfig(token: string, rv: nat)
    | EdgeScript(key: Key, rv: nat)

  /** A bootstrap token, labelled with the bootstrap key of its owner; `expiry` is None when the stored timestamp
      does not parse. */
  datatype Token = Token(owner: string, id: string, secret: string, expiry: Option<int>, rv: nat)

  datatype World = World(
    mds: map<Key, MachineDeployment>, osps: map<Key, OspSpec>, oscs: map<string, OSC>,
    secrets: map<string, Secret>, tokens: map<string, Token>, clock: int, rv: nat)

  function Text(t: Token): string { t.id + "." + t.secret }

  function TokensFor(w: World, owner: string): map<string, Token> {
    map n | n in w.tokens && w.tokens[n].owner == owner :: w.tokens[n]
  }

  function Annotation(a: Annotations, name: string): string {
    if name in a then a[name] else ""
  }

  function StampOf(md: MachineDeployment, osp: OspSpec): Stamp {
    Stamp(Annotation(md.annotations, REVISION_ANNOTATION), md.annotations, osp.version)
  }

  // ---------------------------------------------------------------- requests

  datatype Request =
    | GetMD(key: Key)
    | UpdateMD(key: Key, md: MachineDeployment)
    | GetOSP(key: Key)
    | GetOSC(name: string)
    | CreateOSC(name: string, osc: OSC)
    | DeleteOSC(name: string)
    | ListTokens(owner: string)
    | CreateToken(name: string, token: Token)
    | UpdateToken(name: string, token: Token)
    | GetSecret(name: string)
    | CreateSecret(name: string, secret: Secret)
    | UpdateSecret(name: string, secret: Secret)
    | DeleteSecret(name: string)
    | GetExternal

  /** Failed covers every error but NotFound: conflicts, AlreadyExists, timeouts. */
  datatype Response =
    | Failed
    | NotFound
    | Ok
    | IsMD(md: MachineDeployment)
    | IsOSP(osp: OspSpec)
    | IsOSC(osc: OSC)
    | IsTokens(tokens: map<string, Token>)
    | IsSecret(secret: Secret)

  /** A request succeeds, fails without effect, or takes effect and is reported as failed. */
  datatype Fault = NoFault | Lost | AckLost

  /** Whether a write meets the server's conditions: create never overwrites, an update needs the
      stored resource version, a cloud-config secret is immutable. Reads are not writes. */
  predicate Granted(w: World, r: Request) {
    match r
    case UpdateMD(k, md) => k in w.mds && w.mds[k].rv == md.rv
    case CreateOSC(n, _) => n !in w.oscs
    case DeleteOSC(n) => n in w.oscs
    case CreateToken(n, _) => n !in w.tokens
    case UpdateToken(n, t) => n in w.tokens && w.tokens[n].rv == t.rv
    case CreateSecret(n, _) => n !in w.secrets
    case UpdateSecret(n, s) =>
      n in w.secrets && !w.secrets[n].CloudConfig? && !s.CloudConfig? && w.secrets[n].rv == s.rv
    case DeleteSecret(n) => n in w.secrets
    case _ => false
  }

  /** Stores a machine deployment; one that is being deleted goes away with its last finalizer. */
  function StoreMD(mds: map<Key, MachineDeployment>, rv: nat, k: Key, md: MachineDeployment)
    : map<Key, MachineDeployment>
  {
    if md.deleting && md.finalizers == [] then mds - {k} else mds[k := md.(rv := rv)]
  }

  function StampSecret(s: Secret, rv: nat): Secret {
    if s.CloudConfig? then s else s.(rv := rv)
  }

  function MdsAfter(w: World, r: Request): map<Key, MachineDeployment> {
    if r.UpdateMD? && Granted(w, r) then
      StoreMD(w.mds, w.rv, r.key, r.md.(deleting := w.mds[r.key].deleting))
    else w.mds
  }

  function OscsAfter(w: World, r: Request): map<string, OSC> {
    if r.CreateOSC? && Granted(w, r) then w.oscs[r.name := r.osc]
    else if r.DeleteOSC? then w.oscs - {r.name}
    else w.oscs
  }

  function SecretsAfter(w: World, r: Request): map<string, Secret> {
    if (r.CreateSecret? || r.UpdateSecret?) && Granted(w, r) then
      w.secrets[r.name := StampSecret(r.secret, w.rv)]
    else if r.DeleteSecret? then w.secrets - {r.name}
    else w.secrets
  }

  function TokensAfter(w: World, r: Request): map<string, Token> {
    if (r.CreateToken? || r.UpdateToken?) && Granted(w, r) then
      w.tokens[r.name := r.token.(rv := w.rv)]
    else w.tokens
  }

  function Effect(w: World, r: Request): World {
    World(MdsAfter(w, r), w.osps, OscsAfter(w, r), SecretsAfter(w, r), TokensAfter(w, r), w.clock,
          if Granted(w, r) && !r.DeleteSecret? && !r.DeleteOSC? then w.rv + 1 else w.rv)
  }

  function Answer(w: World, r: Request): Response {
    match r
    case GetMD(k) => if k in w.mds then IsMD(w.mds[k]) else NotFound
    case UpdateMD(k, md) =>
      if k !in w.mds then NotFound
      else if Granted(w, r) then IsMD(md.(deleting := w.mds[k].deleting, rv := w.rv))
      else Failed
    case GetOSP(k) => if k in w.osps then IsOSP(w.osps[k]) else NotFound
    case GetOSC(n) => if n in w.oscs then IsOSC(w.oscs[n]) else NotFound
    case DeleteOSC(n) => if n in w.oscs then Ok else NotFound
    case ListTokens(owner) => IsTokens(TokensFor(w, owner))
    case UpdateToken(n, _) => if n !in w.tokens then NotFound else if Granted(w, r) then Ok else Failed
    case GetSecret(n) => if n in w.secrets then IsSecret(w.secrets[n]) else NotFound
    case UpdateSecret(n, _) => if n !in w.secrets then NotFound else if Granted(w, r) then Ok else Failed
    case DeleteSecret(n) => if n in w.secrets then Ok else NotFound
    case GetExternal => Ok
    case _ => if Granted(w, r) then Ok else Failed
  }

  function WorldAfter(w: World, r: Request, fault: Fault): World {
    if fault == Lost then w else Effect(w, r)
  }

  function Reply(w: World, r: Request, fault: Fault): Response {
    if fault == NoFault then Answer(w, r) else Failed
  }

  // ---------------------------------------------------------------- what the server promises

  /** A create never overwrites, and says so. */
  lemma CreateKeeps(w: World, n: string, osc: OSC, secret: Secret, token: Token)
    ensures n in w.oscs ==> Effect(w, CreateOSC(n, osc)) == w && Answer(w, CreateOSC(n, osc)) == Failed
    ensures n in w.secrets ==> Effect(w, CreateSecret(n, secret)) == w && Answer(w, CreateSecret(n, secret)) == Failed
    ensures n in w.tokens ==> Effect(w, CreateToken(n, token)) == w && Answer(w, CreateToken(n, token)) == Failed
  {
  }

  /** An update against another resource version is refused and changes nothing. */
  lemma StaleUpdateFails(w: World, k: Key, md: MachineDeployment, n: string, token: Token, secret: Secret)
    ensures k in w.mds && w.mds[k].rv != md.rv ==>
      Effect(w, UpdateMD(k, md)) == w && Answer(w, UpdateMD(k, md)) == Failed
    ensures n in w.tokens && w.tokens[n].rv != token.rv ==>
      Effect(w, UpdateToken(n, token)) == w && Answer(w, UpdateToken(n, token)) == Failed
    ensures n in w.secrets && secret.Kubeconfig? && (w.secrets[n].CloudConfig? || w.secrets[n].rv != secret.rv) ==>
      Effect(w, UpdateSecret(n, secret)) == w && Answer(w, UpdateSecret(n, secret)) == Failed
  {
  }

  /** A granted create is seen by the next read, and only what it names has changed. */
  lemma CreateIsRead(w: World, n: string, osc: OSC)
    requires n !in w.oscs
    ensures var w' := Effect(w, CreateOSC(n, osc));
      && Answer(w, CreateOSC(n, osc)) == Ok && Answer(w', GetOSC(n)) == IsOSC(osc)
      && w'.oscs == w.oscs[n := osc] && w'.secrets == w.secrets && w'.tokens == w.tokens && w'.mds == w.mds
  {
  }

  /** A deployment that is being deleted goes away with its last finalizer, and not before. */
  lemma LastFinalizer(w: World, k: Key, md: MachineDeployment)
    requires k in w.mds && w.mds[k].rv == md.rv
    ensures var w' := Effect(w, UpdateMD(k, md));
      && (k !in w'.mds <==> w.mds[k].deleting && md.finalizers == [])
      && (k in w'.mds ==> w'.mds[k].finalizers == md.finalizers && w'.mds[k].deleting == w.mds[k].deleting)
  {
  }
}
