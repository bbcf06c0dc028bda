/** The child list as didAddSubview / willRemoveSubview maintain it: appended
    at the end, and removed at the first index whose view is the same object. */
module Subviews {
  import opened Layout

  /** Array.index(of:): the first index holding the view with identity `id`. */
  function IndexOf(views: seq<View>, id: nat): (r: Option<nat>)
    ensures r.Some? ==> r.value < |views| && views[r.value].id == id
    ensures r.Some? ==> forall j :: 0 <= j < r.value ==> views[j].id != id
    ensures r.None? <==> forall j :: 0 <= j < |views| ==> views[j].id != id
  {
    if |views| == 0 then None
    else if views[0].id == id then Some(0)
    else match IndexOf(views[1..], id)
      case None => None
      case Some(k) => Some(k + 1)
  }

  /** The child list after removing `id` as willRemoveSubview does. */
  function RemoveFirst(views: seq<View>, id: nat): (r: seq<View>)
    ensures |r| == if IndexOf(views, id).Some? then |views| - 1 else |views|
    ensures forall v :: v in r ==> v in views
  {
    match IndexOf(views, id)
    case None => views
    case Some(k) =>
      assert forall v :: v in views[..k] + views[k + 1..] ==> v in views by {
        forall v | v in views[..k] + views[k + 1..] ensures v in views {
          var j :| 0 <= j < |views| - 1 && (views[..k] + views[k + 1..])[j] == v;
          if j < k { assert views[j] == v; } else { assert views[j + 1] == v; }
        }
      }
      views[..k] + views[k + 1..]
  }

  /** Identities that occur in a child list. */
  function Ids(views: seq<View>): set<nat> {
    set j | 0 <= j < |views| :: views[j].id
  }

  /** Removing a view that is not present leaves the list as it was. */
  lemma RemoveAbsent(views: seq<View>, id: nat)
    requires id !in Ids(views)
    ensures RemoveFirst(views, id) == views
  {
    forall j | 0 <= j < |views| ensures views[j].id != id {
      assert views[j].id in Ids(views);
    }
  }

  /** Removing a present view deletes exactly one entry, the first with that
      identity, and keeps the others in order. */
  lemma RemovePresent(views: seq<View>, id: nat)
    requires id in Ids(views)
    ensures |RemoveFirst(views, id)| == |views| - 1
    ensures exists k :: (0 <= k < |views| && views[k].id == id
      && (forall j :: 0 <= j < k ==> views[j].id != id)
      && RemoveFirst(views, id) == views[..k] + views[k + 1..])
  {
    var j :| 0 <= j < |views| && views[j].id == id;
    var r := IndexOf(views, id);
    assert r.Some?;
    var k := r.value;
    assert RemoveFirst(views, id) == views[..k] + views[k + 1..];
  }

  /** Adding a new view and then removing it restores the list: removal is the
      inverse of didAddSubview's append. */
  lemma {:induction false} AppendThenRemove(views: seq<View>, v: View)
    requires v.id !in Ids(views)
    ensures RemoveFirst(views + [v], v.id) == views
  {
    var s := views + [v];
    assert forall j :: 0 <= j < |views| ==> s[j].id != v.id by {
      forall j | 0 <= j < |views| ensures s[j].id != v.id {
        assert s[j] == views[j];
        assert views[j].id in Ids(views);
      }
    }
    assert s[|views|].id == v.id;
    assert IndexOf(s, v.id) == Some(|views|);
    assert s[..|views|] == views;
  }
}
