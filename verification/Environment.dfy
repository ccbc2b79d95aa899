/** The clients the reconciler calls: lvm2go, lsblk and the Kubernetes API, as seen from one node. */
module Environment {
  import opened Wrappers
  import opened Utils
  import opened Lsblk
  import opened Lvm
  import opened Moving
  import opened Api
  import opened World

  /**
   * `disruptions` bounds how often devices may still change. A `reliable` environment refuses nothing that
   * is possible and never loses an answer; otherwise any call may fail for reasons of its own.
   */
  class Client {
    var world: State
    var disruptions: nat
    const reliable: bool
    ghost var trace: seq<Event>

    ghost predicate Valid()
      reads this
    {
      world.Valid()
    }

    ghost function Now(): Moment
      reads this
    {
      Moment(world, disruptions, reliable, trace)
    }

    constructor (world: State, disruptions: nat, reliable: bool)
      requires world.Valid()
      ensures Valid() && Now() == Moment(world, disruptions, reliable, [])
    {
      this.world := world;
      this.disruptions := disruptions;
      this.reliable := reliable;
      trace := [];
    }

    method Disturb()
      requires world.Valid()
      modifies this`world, this`disruptions
      ensures Disturbed(old(world), world) && world.Valid()
      ensures disruptions <= old(disruptions)
      ensures world.host != old(world.host) ==> disruptions < old(disruptions)
    {
      var w: State := *;
      if Disturbed(world, w) && (w.host == world.host || disruptions > 0) {
        if w.host != world.host {
          disruptions := disruptions - 1;
        }
        world := w;
      }
    }

    method Perform(a: Action)
      requires world.Valid() && Possible(world, a)
      modifies this`world
      ensures Does(old(world), a, world) && world.Valid()
    {
      ghost var w := world;
      match a {
        case Lvm(c) =>
          var h := PerformOn(world.host, c);
          world := world.(host := h);
        case Update(key, obj) =>
          world := world.(store := Updated(world.store, key, obj));
        case UpdateStatus(key, obj) =>
          var o := world.store[key];
          world := world.(store := world.store[key := o.(
            conditions := obj.conditions, status := obj.status, version := o.version + 1)]);
        case RunLsblk(_) => world := world.(scan := Some(world.host.forest));
        case Get(_) => world := world.(scan := None);
      }
      DoesKeepsValid(w, a, world);
    }

    static method PerformOn(h: Host, c: Command) returns (h': Host)
      requires h.Valid() && Enabled(h, c)
      ensures Effect(h, c, h')
    {
      if c.Create? {
        return h.(vgs := h.vgs[c.vg := Created(h, c.options)]);
      } else if c.Remove? {
        return h.(vgs := h.vgs - {c.vg});
      } else if c.Rename? {
        return h.(vgs := (h.vgs - {c.vg})[c.to := h.vgs[c.vg]]);
      }
      var g' := PerformOnGroup(h, h.vgs[c.vg], c);
      h' := h.(vgs := h.vgs[c.vg := g']);
    }

    static method PerformOnGroup(h: Host, g: VolumeGroup, c: Command) returns (g': VolumeGroup)
      requires g.Valid() && GroupEnabled(h, g, c)
      ensures GroupEffect(h, g, c, g')
    {
      match c {
        case AddTags(_, tags) => g' := g.(tags := g.tags + Elements(tags));
        case DelTags(_, tags) => g' := g.(tags := g.tags - Elements(tags));
        case Extend(_, ps) => g' := g.(pvs := g.pvs + Sized(Elements(ps), h.sizes));
        case Move(_, source, targets) =>
          g' := Relocate(g, source, Destinations(g, source, targets));
        case Reduce(_, ps, _) => g' := Without(g, Elements(ps));
        case RemoveMissing(n, _) => g' := WithoutMissing(g, h.Missing(n));
        case SetMaxPV(_, limit) => g' := g.(maxPV := limit);
        case SetMaxLV(_, limit) => g' := g.(maxLV := limit);
        case SetPolicy(_, policy) => g' := g.(policy := policy);
        case SetAutoActivation(_, on) => g' := g.(autoActivation := on);
        case _ => g' := g;
      }
    }

    /** Any call. It takes effect, or fails leaving things as they were, or is interrupted on the way. */
    method Run(a: Action) returns (err: Option<Error>)
      requires Valid()
      modifies this
      ensures Valid()
      ensures Stepped(old(Now()), a, err, Now())
    {
      ghost var before := world;
      Disturb();
      ghost var seen := world;
      var lucky: bool := *;
      var answered: bool := *;
      if Possible(world, a) && (reliable || lucky) {
        Perform(a);
        err := if reliable || answered then None else Some(Interrupted);
      } else {
        err := Some(if answered || reliable then Diagnosis(world, a) else Refused);
      }
      trace := trace + [Event(before, seen, a, err, world)];
    }
  }
}
