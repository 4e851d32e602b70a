/** Zone switching. The scene is the set of objects it currently shows; each
    zone is a group object, seen only as an identity, registered under its
    name. Only the zone map and the add/remove effect on the scene are
    modelled: the geometry a zone holds is not. */
module Levels {

  /** The zone names, in the order the zones are created and registered. */
  const ZoneNames: seq<string> := ["rooftop", "construction", "cyber"]

  /** A renderable group: one zone's geometry, seen only as an identity. */
  class Group {
    constructor () {}
  }

  /** The scene graph's children. Objects other than zones (the character,
      lights) may be in it as well. */
  class Scene {
    var children: set<object>

    constructor (initial: set<object>)
      ensures children == initial
    {
      children := initial;
    }
  }

  /** The set of zone groups in a zone map. */
  function ZoneGroups(zones: map<string, Group>): set<object>
  {
    set n | n in zones :: zones[n]
  }

  /** The scene after loading `name`: every zone removed, then the requested
      zone added when the name is registered. */
  function AfterLoad(children: set<object>, zones: map<string, Group>, name: string): set<object>
  {
    var cleared := children - ZoneGroups(zones);
    if name in zones then cleared + {zones[name]} else cleared
  }

  /** With a registered name, the requested zone is the only zone shown. */
  lemma LoadShowsOnlyRequested(children: set<object>, zones: map<string, Group>, name: string)
    requires name in zones
    ensures AfterLoad(children, zones, name) * ZoneGroups(zones) == {zones[name]}
  {
    var after := AfterLoad(children, zones, name);
    assert zones[name] in ZoneGroups(zones);
    forall o | o in after * ZoneGroups(zones)
      ensures o == zones[name]
    {
    }
  }

  /** With an unknown name, no zone is shown. */
  lemma LoadUnknownShowsNone(children: set<object>, zones: map<string, Group>, name: string)
    requires name !in zones
    ensures AfterLoad(children, zones, name) * ZoneGroups(zones) == {}
  {
    var after := AfterLoad(children, zones, name);
    forall o | o in after * ZoneGroups(zones)
      ensures false
    {
    }
  }

  /** Objects that are not zones are shown after a load exactly when they
      were shown before it. */
  lemma LoadKeepsOtherObjects(children: set<object>, zones: map<string, Group>, name: string, o: object)
    requires o !in ZoneGroups(zones)
    ensures o in AfterLoad(children, zones, name) <==> o in children
  {
    if name in zones {
      assert zones[name] in ZoneGroups(zones);
    }
  }

  /** Loading the same zone twice shows what loading it once shows. */
  lemma LoadIdempotent(children: set<object>, zones: map<string, Group>, name: string)
    ensures AfterLoad(AfterLoad(children, zones, name), zones, name) == AfterLoad(children, zones, name)
  {
    var once := AfterLoad(children, zones, name);
    var twice := AfterLoad(once, zones, name);
    if name in zones {
      assert zones[name] in ZoneGroups(zones);
    }
    forall o | o in twice ensures o in once {
    }
    forall o | o in once ensures o in twice {
    }
  }

  class ZoneManager {
    const scene: Scene
    var zones: map<string, Group>
    /** The keys of `zones` in insertion order. */
    var keys: seq<string>

    predicate Valid()
      reads this
    {
      keys == ZoneNames && zones.Keys == {"rooftop", "construction", "cyber"}
    }

    /** Registers the three zones; none of them is added to the scene. */
    constructor (scene: Scene)
      ensures Valid() && this.scene == scene
      ensures scene.children == old(scene.children)
      ensures fresh(zones["rooftop"]) && fresh(zones["construction"]) && fresh(zones["cyber"])
      ensures zones["rooftop"] != zones["construction"] && zones["construction"] != zones["cyber"]
      ensures zones["rooftop"] != zones["cyber"]
      ensures ZoneGroups(zones) !! scene.children
    {
      this.scene := scene;
      zones := map[];
      keys := [];
      new;
      CreateZones();
      assert forall n | n in zones :: zones[n] == zones["rooftop"] || zones[n] == zones["construction"] || zones[n] == zones["cyber"];
    }

    /** Creates and registers the rooftop, construction and cyber zones, in
        that order. */
    method CreateZones()
      requires zones == map[] && keys == []
      modifies this
      ensures Valid()
      ensures fresh(zones["rooftop"]) && fresh(zones["construction"]) && fresh(zones["cyber"])
      ensures zones["rooftop"] != zones["construction"] && zones["construction"] != zones["cyber"]
      ensures zones["rooftop"] != zones["cyber"]
    {
      var rooftop := new Group();
      Register("rooftop", rooftop);
      var construction := new Group();
      Register("construction", construction);
      var cyber := new Group();
      Register("cyber", cyber);
    }

    /** `this.zones[name] = zone`: a new key goes to the end of the key
        order, an existing one keeps its place. */
    method Register(name: string, zone: Group)
      modifies this
      ensures zones == old(zones)[name := zone]
      ensures keys == if name in old(zones) then old(keys) else old(keys) + [name]
    {
      if name !in zones {
        keys := keys + [name];
      }
      zones := zones[name := zone];
    }

    /** Removes every zone from the scene, then adds the requested one when
        it is registered. */
    method LoadZone(name: string)
      requires Valid()
      modifies scene
      ensures scene.children == AfterLoad(old(scene.children), zones, name)
      ensures name in zones ==> scene.children * ZoneGroups(zones) == {zones[name]}
      ensures name !in zones ==> scene.children * ZoneGroups(zones) == {}
    {
      var i := 0;
      while i < |keys|
        invariant 0 <= i <= |keys|
        invariant scene.children == old(scene.children) - (set j | 0 <= j < i :: zones[keys[j]])
      {
        scene.children := scene.children - {zones[keys[i]]};
        i := i + 1;
      }
      assert (set j | 0 <= j < |keys| :: zones[keys[j]]) == ZoneGroups(zones) by {
        forall n | n in zones ensures zones[n] in (set j | 0 <= j < |keys| :: zones[keys[j]]) {
          assert n == keys[0] || n == keys[1] || n == keys[2];
        }
      }
      if name in zones {
        scene.children := scene.children + {zones[name]};
        LoadShowsOnlyRequested(old(scene.children), zones, name);
      } else {
        LoadUnknownShowsNone(old(scene.children), zones, name);
      }
    }

    /** The registered zone names, in registration order. */
    method GetAvailableZones() returns (names: seq<string>)
      requires Valid()
      ensures names == ["rooftop", "construction", "cyber"]
      ensures forall n :: n in zones <==> n in names
    {
      names := keys;
    }
  }
}
