/**
 * The process-wide favourites cache (FavoriteManager). The remote tree
 * `favorites/{uid}/{id}` is a map from user id to a map from product id to
 * product; authentication changes, snapshots and listener cancellations
 * arrive as explicit events, one at a time.
 */
module Favorites {
  import opened Wrappers
  import opened ItemsModel

  type Remote = map<string, map<string, Item>>

  /** The children stored under `favorites/{uid}`. */
  function Children(remote: Remote, uid: string): map<string, Item> {
    if uid in remote then remote[uid] else map[]
  }

  /** Both writes act only for a signed-in user and a product with a non-empty id. */
  predicate CanWrite(user: Option<string>, item: Item) {
    user.Some? && item.id != ""
  }

  /** `addFavorite` on the remote tree: `favorites/{uid}/{id} := item` under the guard. */
  function WithFavorite(remote: Remote, user: Option<string>, item: Item): Remote {
    if CanWrite(user, item) then remote[user.value := Children(remote, user.value)[item.id := item]]
    else remote
  }

  /** `removeFavorite` on the remote tree: delete `favorites/{uid}/{id}` under the guard. */
  function WithoutFavorite(remote: Remote, user: Option<string>, item: Item): Remote {
    if CanWrite(user, item) then remote[user.value := Children(remote, user.value) - {item.id}]
    else remote
  }

  /** Adding stores the product under its id for the signed-in user; otherwise nothing changes. */
  lemma AddStores(remote: Remote, user: Option<string>, item: Item)
    ensures var r := WithFavorite(remote, user, item);
      (CanWrite(user, item) ==> item.id in Children(r, user.value) && Children(r, user.value)[item.id] == item) &&
      (!CanWrite(user, item) ==> r == remote)
  {
  }

  /** Removing deletes the id for the signed-in user; otherwise nothing changes. */
  lemma RemoveDeletes(remote: Remote, user: Option<string>, item: Item)
    ensures var r := WithoutFavorite(remote, user, item);
      (CanWrite(user, item) ==> item.id !in Children(r, user.value)) &&
      (!CanWrite(user, item) ==> r == remote)
  {
  }

  /** Writes touch one user's one child: every other entry keeps its value. */
  lemma WritesAreLocal(remote: Remote, user: Option<string>, item: Item, uid: string, id: string)
    requires user != Some(uid) || id != item.id
    ensures var a := WithFavorite(remote, user, item);
      var d := WithoutFavorite(remote, user, item);
      (id in Children(a, uid) <==> id in Children(remote, uid)) &&
      (id in Children(d, uid) <==> id in Children(remote, uid)) &&
      (id in Children(remote, uid) ==> Children(a, uid)[id] == Children(remote, uid)[id] == Children(d, uid)[id])
  {
  }

  /** Repeating an add, or a remove, changes nothing more. */
  lemma WritesIdempotent(remote: Remote, user: Option<string>, item: Item)
    ensures WithFavorite(WithFavorite(remote, user, item), user, item) == WithFavorite(remote, user, item)
    ensures WithoutFavorite(WithoutFavorite(remote, user, item), user, item) == WithoutFavorite(remote, user, item)
  {
    if CanWrite(user, item) {
      var u := user.value;
      var once := WithFavorite(remote, user, item);
      assert Children(once, u)[item.id := item] == Children(once, u);
      var gone := WithoutFavorite(remote, user, item);
      assert Children(gone, u) - {item.id} == Children(gone, u);
    }
  }

  /** The products that decoded, in snapshot order; a child that failed to decode is null. */
  function Decoded(children: seq<Option<Item>>): (r: seq<Item>)
    ensures |r| <= |children|
    ensures forall i :: 0 <= i < |children| && children[i].Some? ==> children[i].value in r
    ensures forall i :: 0 <= i < |r| ==> Some(r[i]) in children
  {
    if children == [] then []
    else
      var rest := Decoded(children[..|children| - 1]);
      var last := children[|children| - 1];
      assert children == children[..|children| - 1] + [last];
      if last.Some? then rest + [last.value] else rest
  }

  /** `any { it.id == id }`. */
  function HasId(s: seq<Item>, id: string): (b: bool)
    ensures b <==> exists i :: 0 <= i < |s| && s[i].id == id
  {
    if s == [] then false
    else s[0].id == id || HasId(s[1..], id)
  }

  /** The loop in `onDataChange`: collect the children that decoded. */
  method CollectFavorites(children: seq<Option<Item>>) returns (favorites: seq<Item>)
    ensures favorites == Decoded(children)
  {
    favorites := [];
    for i := 0 to |children|
      invariant favorites == Decoded(children[..i])
    {
      assert children[..i + 1][..i] == children[..i];
      if children[i].Some? {
        favorites := favorites + [children[i].value];
      }
    }
    assert children[..|children|] == children;
  }

  /** After a snapshot delivering A and B, A is a favourite and a product with another id is not. */
  lemma SnapshotMembership(a: Item, b: Item, c: Item)
    requires c.id != a.id && c.id != b.id
    ensures var favs := Decoded([Some(a), Some(b)]);
      HasId(favs, a.id) && HasId(favs, b.id) && !HasId(favs, c.id)
  {
    assert [Some(a), Some(b)][..1] == [Some(a)] && [Some(a)][..0] == [];
    assert Decoded([Some(a), Some(b)]) == [a, b];
  }

  class FavoriteManager {
    /** `_favoriteItems`: the observable list. */
    var favoriteItems: seq<Item>
    /** The signed-in user's uid, as the auth provider last reported it. */
    var currentUser: Option<string>
    /** The remote tree, written by add/remove. */
    var remote: Remote
    /** The users for whom a standing listener was attached; none is ever detached. */
    var listeners: seq<string>

    /** The singleton's `init`: the list starts empty; a listener is attached if someone is signed in. */
    constructor (user: Option<string>, remote0: Remote)
      ensures favoriteItems == [] && currentUser == user && remote == remote0
      ensures listeners == if user.Some? then [user.value] else []
    {
      favoriteItems := [];
      currentUser := user;
      remote := remote0;
      listeners := if user.Some? then [user.value] else [];
    }

    /** Auth state listener: sign-in attaches a listener, sign-out empties the list. */
    method OnAuthStateChanged(user: Option<string>)
      modifies this
      ensures currentUser == user && remote == old(remote)
      ensures user.None? ==> favoriteItems == [] && listeners == old(listeners)
      ensures user.Some? ==> favoriteItems == old(favoriteItems) && listeners == old(listeners) + [user.value]
    {
      currentUser := user;
      if user.Some? {
        listeners := listeners + [user.value];
      } else {
        favoriteItems := [];
      }
    }

    /** `onDataChange` of a listener attached for `uid`: the list becomes the decoded children. */
    method OnDataChange(uid: string, children: seq<Option<Item>>)
      requires uid in listeners
      modifies this
      ensures favoriteItems == Decoded(children)
      ensures currentUser == old(currentUser) && remote == old(remote) && listeners == old(listeners)
    {
      favoriteItems := CollectFavorites(children);
    }

    /** `onCancelled`: fail safe to the empty list rather than keep stale data. */
    method OnCancelled(uid: string)
      requires uid in listeners
      modifies this
      ensures favoriteItems == []
      ensures currentUser == old(currentUser) && remote == old(remote) && listeners == old(listeners)
    {
      favoriteItems := [];
    }

    /** `addFavorite`: a guarded remote write; the cached list is left alone. */
    method AddFavorite(item: Item)
      modifies this
      ensures remote == WithFavorite(old(remote), currentUser, item)
      ensures favoriteItems == old(favoriteItems) && currentUser == old(currentUser) && listeners == old(listeners)
    {
      if currentUser.Some? && item.id != "" {
        var uid := currentUser.value;
        remote := remote[uid := Children(remote, uid)[item.id := item]];
      }
    }

    /** `removeFavorite`: a guarded remote delete; the cached list is left alone. */
    method RemoveFavorite(item: Item)
      modifies this
      ensures remote == WithoutFavorite(old(remote), currentUser, item)
      ensures favoriteItems == old(favoriteItems) && currentUser == old(currentUser) && listeners == old(listeners)
    {
      if currentUser.Some? && item.id != "" {
        var uid := currentUser.value;
        remote := remote[uid := Children(remote, uid) - {item.id}];
      }
    }

    /** `isFavorite`: membership by id in the cached list. */
    function IsFavorite(item: Item): (b: bool)
      reads this
      ensures b <==> exists i :: 0 <= i < |favoriteItems| && favoriteItems[i].id == item.id
      ensures favoriteItems == [] ==> !b
    {
      HasId(favoriteItems, item.id)
    }

    /** The heart button on a product card: remove if cached as a favourite, else add. */
    method ToggleFavorite(item: Item)
      modifies this
      ensures remote == if old(IsFavorite(item)) then WithoutFavorite(old(remote), currentUser, item)
                        else WithFavorite(old(remote), currentUser, item)
      ensures favoriteItems == old(favoriteItems) && currentUser == old(currentUser) && listeners == old(listeners)
    {
      if IsFavorite(item) {
        RemoveFavorite(item);
      } else {
        AddFavorite(item);
      }
    }
  }
}
