/**
 * The cast block of a detail page: each `.bac-item` holds a list of
 * `.per-info` entries (character first, voice actor second), and
 * `getActorData` turns one list into an actor record or nothing.
 */
module Actors {
  import opened Text

  /**
   * One `.per-info` entry after HTML selection: the text of `.pi-name`,
   * the `data-src` of `a > img` and the text of `.pi-cast`, each `None`
   * when the element is missing.
   */
  datatype PersonInfo = PersonInfo(name: Option<string>, image: Option<string>, cast: Option<string>)

  datatype Actor = Actor(name: string, image: string)

  /** The role is kept as the raw cast text. */
  datatype ActorData = ActorData(actor: Actor, role: string, voiceActor: Option<Actor>)

  predicate Complete(p: PersonInfo) {
    p.name.Some? && p.image.Some?
  }

  function ActorOf(p: PersonInfo): Actor
    requires Complete(p)
  {
    Actor(p.name.value, p.image.value)
  }

  /**
   * What one cast entry yields: nothing when it is empty or when any of
   * its entries lacks a name or an image; otherwise the first entry is
   * the actor (role "Main" unless a cast text is given), the second, if
   * any, the voice actor, and the rest is ignored.
   */
  function ActorDataOf(infos: seq<PersonInfo>): Option<ActorData> {
    if |infos| == 0 || exists i :: 0 <= i < |infos| && !Complete(infos[i]) then None
    else Some(ActorData(
      ActorOf(infos[0]),
      infos[0].cast.GetOr("Main"),
      if |infos| >= 2 then Some(ActorOf(infos[1])) else None))
  }

  /** `getActorData`: the indexed loop with its early `return null`s. */
  method GetActorData(infos: seq<PersonInfo>) returns (r: Option<ActorData>)
    ensures r == ActorDataOf(infos)
  {
    var actor: Option<Actor> := None;
    var role: Option<string> := None;
    var voiceActor: Option<Actor> := None;
    for i := 0 to |infos|
      invariant forall j :: 0 <= j < i ==> Complete(infos[j])
      invariant actor == (if i > 0 then Some(ActorOf(infos[0])) else None)
      invariant role == (if i > 0 then Some(infos[0].cast.GetOr("Main")) else None)
      invariant voiceActor == (if i > 1 then Some(ActorOf(infos[1])) else None)
    {
      var info := infos[i];
      if info.name.None? {
        return None;
      }
      var name := info.name.value;
      if info.image.None? {
        return None;
      }
      var image := info.image.value;
      if i == 0 {
        actor := Some(Actor(name, image));
        role := Some(info.cast.GetOr("Main"));
      } else if i == 1 {
        voiceActor := Some(Actor(name, image));
      }
    }
    if actor.None? {
      return None;
    }
    r := Some(ActorData(actor.value, role.value, voiceActor));
  }

  /** Complete entries after the second change nothing. */
  lemma LaterEntriesIgnored(infos: seq<PersonInfo>, rest: seq<PersonInfo>)
    requires |infos| >= 2
    requires forall j :: 0 <= j < |rest| ==> Complete(rest[j])
    ensures ActorDataOf(infos + rest) == ActorDataOf(infos)
  {
    var all := infos + rest;
    if exists i :: 0 <= i < |infos| && !Complete(infos[i]) {
      var i :| 0 <= i < |infos| && !Complete(infos[i]);
      assert all[i] == infos[i];
    } else {
      forall i | 0 <= i < |all|
        ensures Complete(all[i])
      {
        if i >= |infos| {
          assert all[i] == rest[i - |infos|];
        }
      }
    }
  }

  /**
   * `load` keeps the actor records of the cast entries that yield one
   * (`mapNotNull`), in page order.
   */
  function Cast(entries: seq<seq<PersonInfo>>): (r: seq<ActorData>)
    ensures |r| <= |entries|
    ensures forall a :: a in r <==> exists e :: e in entries && ActorDataOf(e) == Some(a)
  {
    if entries == [] then []
    else
      var tail := Cast(entries[1..]);
      assert forall e :: e in entries <==> e == entries[0] || e in entries[1..];
      match ActorDataOf(entries[0])
      case Some(a) => [a] + tail
      case None => tail
  }

  /** The records of one cast entry: one when it yields a record, none otherwise. */
  function Yield(e: seq<PersonInfo>): seq<ActorData> {
    match ActorDataOf(e)
    case Some(a) => [a]
    case None => []
  }

  /** The cast of consecutive parts of the page is the parts' casts in order. */
  lemma {:induction false} CastOfConcat(a: seq<seq<PersonInfo>>, b: seq<seq<PersonInfo>>)
    ensures Cast(a + b) == Cast(a) + Cast(b)
    decreases |a|
  {
    if a == [] {
      assert a + b == b;
    } else {
      assert (a + b)[1..] == a[1..] + b;
      CastOfConcat(a[1..], b);
    }
  }

  /**
   * `mapNotNull` keeps page order and gives exactly one record per entry
   * that yields one: an entry between `a` and `b` contributes its own
   * record, if any, between theirs.
   */
  lemma CastOfPage(a: seq<seq<PersonInfo>>, e: seq<PersonInfo>, b: seq<seq<PersonInfo>>)
    ensures Cast(a + [e] + b) == Cast(a) + Yield(e) + Cast(b)
    ensures |Cast(a + [e] + b)| == |Cast(a)| + |Yield(e)| + |Cast(b)|
  {
    CastOfConcat(a + [e], b);
    CastOfConcat(a, [e]);
    CastOfOne(e);
  }

  lemma CastOfOne(e: seq<PersonInfo>)
    ensures Cast([e]) == Yield(e)
  {
    assert [e][1..] == [];
  }
}
