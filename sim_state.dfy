/**
 * The persistent state of the simulation (`State` and its `Spawner`s) and its JSON form, as
 * `to_json`/`from_json` map it field by field. JSON is an abstract value: parsing and printing
 * text are not part of this model.
 */
module SimState {
  import opened Wrappers
  import opened Gpu

  type int32 = n: int | -0x8000_0000 <= n < 0x8000_0000

  /** The conversion of a JSON integer to `int`: modulo 2^32, as C++ narrows. */
  function ToInt32(n: int): (r: int32)
    ensures -0x8000_0000 <= n < 0x8000_0000 ==> r == n
    ensures (r - n) % 0x1_0000_0000 == 0
  {
    var m := n % 0x1_0000_0000;
    if m < 0x8000_0000 then m else m - 0x1_0000_0000
  }

  /** The six fields, in the order of the `Texture` enumeration. */
  datatype Texture = VelocityX | VelocityY | VelocityZ | Pressure | Divergence | Density
  {
    /** The enumerator's value, which is also the index of its field. */
    function Index(): (i: nat)
      ensures i < TextureCount
      ensures TextureFromIndex(i) == Some(this)
    {
      match this
      case VelocityX => 0
      case VelocityY => 1
      case VelocityZ => 2
      case Pressure => 3
      case Divergence => 4
      case Density => 5
    }
  }

  const TextureCount: nat := 6

  /** The enumerator with value `i`, if there is one. */
  function TextureFromIndex(i: int): (t: Option<Texture>)
    ensures t.Some? <==> 0 <= i < TextureCount
  {
    if i == 0 then Some(VelocityX)
    else if i == 1 then Some(VelocityY)
    else if i == 2 then Some(VelocityZ)
    else if i == 3 then Some(Pressure)
    else if i == 4 then Some(Divergence)
    else if i == 5 then Some(Density)
    else None
  }

  lemma TextureFromIndexInverts(i: int)
    requires 0 <= i < TextureCount
    ensures TextureFromIndex(i).value.Index() == i
  {
  }

  /** The textures the spawner combo box offers. */
  const SpawnerTextures: seq<Texture> := [VelocityX, VelocityY, VelocityZ, Density]

  datatype Position = Position(x: int32, y: int32, z: int32)

  /** A source that adds `value` at `position` of its field on every frame. */
  datatype Spawner = Spawner(texture: Texture, position: Position, value: Float)

  datatype State = State(size: int32, iterations: int32, diffusion: Float, viscosity: Float,
                         spawners: seq<Spawner>)

  /** The member initialisers of `State`. */
  const DefaultState := State(128, 5, Hundredth, Hundredth, [])

  /** The spawner the Add button appends: density 1.0 at `size / 2 - 1` on every axis. */
  function NewSpawner(size: int32): (s: Spawner)
    ensures s.texture == Density && s.value == One
    ensures s.position.x == s.position.y == s.position.z == Quotient(size, 2) - 1
  {
    var center := Quotient(size, 2) - 1;
    Spawner(Density, Position(center, center, center), One)
  }

  /** A JSON value; a number is an integer or a float, as nlohmann keeps them apart. */
  datatype Json =
    | Null
    | Boolean(b: bool)
    | Integer(i: int)
    | Number(f: Float)
    | Text(s: string)
    | Array(items: seq<Json>)
    | Object(members: map<string, Json>)

  /** Why a JSON value does not convert. */
  datatype JsonError =
    | NotAnObject
    | MissingMember(key: string)
    | WrongType(key: string)
    | ShortPosition
    | UnknownTexture(index: int)

  /* ---- to_json ---- */

  function PositionToJson(p: Position): Json
  {
    Array([Integer(p.x), Integer(p.y), Integer(p.z)])
  }

  function SpawnerToJson(s: Spawner): (j: Json)
    ensures j.Object? && j.members.Keys == {"texture", "position", "value"}
    ensures j.members["texture"] == Integer(s.texture.Index())
  {
    Object(map["texture" := Integer(s.texture.Index()),
               "position" := PositionToJson(s.position),
               "value" := Number(s.value)])
  }

  /** The spawner list as a JSON array, element by element in order. */
  function SpawnersToJson(ss: seq<Spawner>): (items: seq<Json>)
    ensures |items| == |ss|
    ensures forall i :: 0 <= i < |ss| ==> items[i] == SpawnerToJson(ss[i])
  {
    if |ss| == 0 then [] else [SpawnerToJson(ss[0])] + SpawnersToJson(ss[1..])
  }

  function StateToJson(s: State): (j: Json)
    ensures j.Object? && j.members.Keys == {"size", "iterations", "diffusion", "viscosity", "spawners"}
    ensures j.members["spawners"].Array? && |j.members["spawners"].items| == |s.spawners|
  {
    Object(map["size" := Integer(s.size),
               "iterations" := Integer(s.iterations),
               "diffusion" := Number(s.diffusion),
               "viscosity" := Number(s.viscosity),
               "spawners" := Array(SpawnersToJson(s.spawners))])
  }

  /* ---- from_json ---- */

  function Member(j: Json, key: string): Result<Json, JsonError>
  {
    if !j.Object? then Err(NotAnObject)
    else if key !in j.members then Err(MissingMember(key))
    else Ok(j.members[key])
  }

  function AsInt(j: Json, key: string): Result<int32, JsonError>
  {
    if j.Integer? then Ok(ToInt32(j.i)) else Err(WrongType(key))
  }

  function AsFloat(j: Json, key: string): Result<Float, JsonError>
  {
    if j.Number? then Ok(j.f) else Err(WrongType(key))
  }

  /** `json["position"][0..2]`: the first three elements of an array of at least three integers. */
  function PositionFromJson(j: Json): Result<Position, JsonError>
  {
    if !j.Array? then Err(WrongType("position"))
    else if |j.items| < 3 then Err(ShortPosition)
    else
      var x :- AsInt(j.items[0], "position");
      var y :- AsInt(j.items[1], "position");
      var z :- AsInt(j.items[2], "position");
      Ok(Position(x, y, z))
  }

  function SpawnerFromJson(j: Json): (r: Result<Spawner, JsonError>)
    ensures !j.Object? ==> r == Err(NotAnObject)
  {
    var t :- Member(j, "texture");
    var index :- AsInt(t, "texture");
    var texture := TextureFromIndex(index);
    if texture.None? then Err(UnknownTexture(index))
    else
      var p :- Member(j, "position");
      var position :- PositionFromJson(p);
      var v :- Member(j, "value");
      var value :- AsFloat(v, "value");
      Ok(Spawner(texture.value, position, value))
  }

  /** A JSON array of spawners; the first element that does not convert decides the error. */
  function SpawnersFromJson(items: seq<Json>): (r: Result<seq<Spawner>, JsonError>)
    ensures r.Ok? ==> |r.value| == |items|
    ensures r.Ok? ==> forall i :: 0 <= i < |items| ==> SpawnerFromJson(items[i]) == Ok(r.value[i])
  {
    if |items| == 0 then Ok([])
    else
      var first :- SpawnerFromJson(items[0]);
      var rest :- SpawnersFromJson(items[1..]);
      Ok([first] + rest)
  }

  function StateFromJson(j: Json): (r: Result<State, JsonError>)
    ensures !j.Object? ==> r == Err(NotAnObject)
  {
    var size :- Member(j, "size");
    var size :- AsInt(size, "size");
    var iterations :- Member(j, "iterations");
    var iterations :- AsInt(iterations, "iterations");
    var diffusion :- Member(j, "diffusion");
    var diffusion :- AsFloat(diffusion, "diffusion");
    var viscosity :- Member(j, "viscosity");
    var viscosity :- AsFloat(viscosity, "viscosity");
    var spawners :- Member(j, "spawners");
    if !spawners.Array? then Err(WrongType("spawners"))
    else
      var spawners :- SpawnersFromJson(spawners.items);
      Ok(State(size, iterations, diffusion, viscosity, spawners))
  }

  /* ---- round trip ---- */

  lemma SpawnerRoundTrip(s: Spawner)
    ensures SpawnerFromJson(SpawnerToJson(s)) == Ok(s)
  {
    assert TextureFromIndex(s.texture.Index()) == Some(s.texture);
  }

  lemma {:induction false} SpawnersRoundTrip(ss: seq<Spawner>)
    ensures SpawnersFromJson(SpawnersToJson(ss)) == Ok(ss)
  {
    var k := |ss|;
    assert ss[k..] == [];
    while k > 0
      invariant 0 <= k <= |ss|
      invariant SpawnersFromJson(SpawnersToJson(ss[k..])) == Ok(ss[k..])
    {
      var tail := ss[k..];
      k := k - 1;
      SpawnerRoundTrip(ss[k]);
      assert ss[k..][1..] == tail;
      assert SpawnersToJson(ss[k..])[1..] == SpawnersToJson(tail);
      assert [ss[k]] + tail == ss[k..];
    }
    assert ss[0..] == ss;
  }

  /** Saving a state and loading the saved JSON gives the same state back. */
  lemma StateRoundTrip(s: State)
    ensures StateFromJson(StateToJson(s)) == Ok(s)
  {
    SpawnersRoundTrip(s.spawners);
  }

  /** Members other than the five `from_json` looks up do not affect the loaded state. */
  lemma StateIgnoresOtherMembers(members: map<string, Json>, key: string, v: Json)
    requires key !in {"size", "iterations", "diffusion", "viscosity", "spawners"}
    ensures StateFromJson(Object(members[key := v])) == StateFromJson(Object(members))
  {
  }

  /** Members other than the three `from_json` looks up do not affect the loaded spawner. */
  lemma SpawnerIgnoresOtherMembers(members: map<string, Json>, key: string, v: Json)
    requires key !in {"texture", "position", "value"}
    ensures SpawnerFromJson(Object(members[key := v])) == SpawnerFromJson(Object(members))
  {
  }
}
