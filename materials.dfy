/** The material effect: every mesh of the loaded card, in traversal order,
    gets a fresh physical material built from the configuration; the mesh at
    the accent index takes the configured colour, every other mesh keeps the
    colour of the material it held. */
module Materials {

  /** A colour value, treated as opaque: only copied and compared. */
  type Color(==)

  /** The mesh (in traversal order) that takes the configured accent colour. */
  const TargetIndex: nat := 2

  /** The `materialProps` object handed down by the page. */
  datatype MaterialConfig = MaterialConfig(
    metalness: real,
    roughness: real,
    clearcoat: real,
    clearcoatRoughness: real,
    envMapIntensity: real,
    color: Color)

  /** The material fields the effect reads or writes. */
  datatype Material = Material(
    color: Color,
    metalness: real,
    roughness: real,
    clearcoat: real,
    clearcoatRoughness: real,
    envMapIntensity: real)

  /** A mesh as the effect sees it: its material and its two shadow flags. */
  datatype Mesh = Mesh(material: Material, castShadow: bool, receiveShadow: bool)

  /** A new physical material of the given colour with the five scalars of the configuration. */
  function Physical(color: Color, config: MaterialConfig): Material {
    Material(color, config.metalness, config.roughness, config.clearcoat,
             config.clearcoatRoughness, config.envMapIntensity)
  }

  /** The colour the mesh at `index` is given: the accent colour at the
      target index, a copy of its current colour everywhere else. */
  function ColorFor(m: Mesh, index: nat, config: MaterialConfig): Color {
    if index == TargetIndex then config.color else m.material.color
  }

  /** What the effect turns the mesh at `index` into. */
  function Rebuilt(m: Mesh, index: nat, config: MaterialConfig): Mesh {
    Mesh(Physical(ColorFor(m, index, config), config), true, true)
  }

  /** The whole mesh list after one run of the effect. */
  function Applied(meshes: seq<Mesh>, config: MaterialConfig): seq<Mesh> {
    seq(|meshes|, i requires 0 <= i < |meshes| => Rebuilt(meshes[i], i, config))
  }

  /** The mesh list after one run of the effect per configuration, in order. */
  function AppliedAll(meshes: seq<Mesh>, configs: seq<MaterialConfig>): seq<Mesh>
    decreases |configs|
  {
    if configs == [] then meshes else AppliedAll(Applied(meshes, configs[0]), configs[1..])
  }

  /** True when the mesh carries exactly the configuration's scalars and casts
      and receives shadows. */
  predicate Configured(m: Mesh, config: MaterialConfig) {
    m.material.metalness == config.metalness &&
    m.material.roughness == config.roughness &&
    m.material.clearcoat == config.clearcoat &&
    m.material.clearcoatRoughness == config.clearcoatRoughness &&
    m.material.envMapIntensity == config.envMapIntensity &&
    m.castShadow && m.receiveShadow
  }

  /** The material effect over the collected meshes, replacing each in place. */
  method ApplyMaterials(meshes: array<Mesh>, config: MaterialConfig)
    modifies meshes
    ensures meshes[..] == Applied(old(meshes[..]), config)
  {
    var i := 0;
    while i < meshes.Length
      invariant 0 <= i <= meshes.Length
      invariant forall k :: 0 <= k < i ==> meshes[k] == Rebuilt(old(meshes[k]), k, config)
      invariant forall k :: i <= k < meshes.Length ==> meshes[k] == old(meshes[k])
    {
      var child := meshes[i];
      if i == TargetIndex {
        meshes[i] := Mesh(Physical(config.color, config), true, true);
      } else {
        meshes[i] := Mesh(Physical(child.material.color, config), true, true);
      }
      i := i + 1;
    }
  }

  /** One run keeps the list's length and order; the mesh at the target index
      (if there is one) takes the accent colour, every other mesh keeps its
      colour; every mesh carries the configuration's scalars and both shadow flags. */
  lemma AppliedSpec(meshes: seq<Mesh>, config: MaterialConfig)
    ensures |Applied(meshes, config)| == |meshes|
    ensures forall i :: 0 <= i < |meshes| ==> Configured(Applied(meshes, config)[i], config)
    ensures TargetIndex < |meshes| ==> Applied(meshes, config)[TargetIndex].material.color == config.color
    ensures forall i :: 0 <= i < |meshes| && i != TargetIndex ==>
              Applied(meshes, config)[i].material.color == meshes[i].material.color
  {
  }

  /** With fewer meshes than the target index needs, no mesh takes the
      accent: every mesh keeps its colour. */
  lemma ShortListHasNoAccent(meshes: seq<Mesh>, config: MaterialConfig)
    requires |meshes| <= TargetIndex
    ensures forall i :: 0 <= i < |meshes| ==>
              Applied(meshes, config)[i] == Mesh(Physical(meshes[i].material.color, config), true, true)
  {
  }

  /** A run is a full rebuild: running with one configuration and then another
      gives the same meshes as running with the second alone. */
  lemma LastConfigWins(meshes: seq<Mesh>, first: MaterialConfig, second: MaterialConfig)
    ensures Applied(Applied(meshes, first), second) == Applied(meshes, second)
  {
    var once := Applied(meshes, first);
    forall i | 0 <= i < |meshes|
      ensures Applied(once, second)[i] == Applied(meshes, second)[i]
    {
      assert once[i].material.color == meshes[i].material.color || i == TargetIndex;
    }
  }

  /** Running twice with the same configuration gives the same field values as running once. */
  lemma Idempotent(meshes: seq<Mesh>, config: MaterialConfig)
    ensures Applied(Applied(meshes, config), config) == Applied(meshes, config)
  {
    LastConfigWins(meshes, config, config);
  }

  /** Any non-empty run of configurations leaves the meshes as the last one alone would. */
  lemma {:induction false} AppliedAllIsLast(meshes: seq<Mesh>, configs: seq<MaterialConfig>)
    requires configs != []
    ensures AppliedAll(meshes, configs) == Applied(meshes, configs[|configs| - 1])
    decreases |configs|
  {
    if |configs| > 1 {
      AppliedAllIsLast(Applied(meshes, configs[0]), configs[1..]);
      LastConfigWins(meshes, configs[0], configs[|configs| - 1]);
    }
  }

  /** Base-colour preservation: however many runs, with whatever accent
      colours, every mesh other than the target keeps its original colour. */
  lemma {:induction false} BodyColorPreserved(meshes: seq<Mesh>, configs: seq<MaterialConfig>, i: nat)
    requires i < |meshes| && i != TargetIndex
    ensures |AppliedAll(meshes, configs)| == |meshes|
    ensures AppliedAll(meshes, configs)[i].material.color == meshes[i].material.color
    decreases |configs|
  {
    if configs != [] {
      BodyColorPreserved(Applied(meshes, configs[0]), configs[1..], i);
    }
  }
}
