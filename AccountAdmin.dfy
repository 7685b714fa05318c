/**
 * The accounts admin (accounts_app/admin.py): saving a notification
 * rebuilds its recipient links, and adding a user places them in the
 * chosen role group.
 *
 * The link table is a sequence of (user, notification) rows; a link's user
 * is optional because deleting a user sets it to NULL. The members of the
 * "Cliente" group are passed in, None when that group does not exist.
 */
module AccountAdmin {
  import opened Wrappers
  import opened Queries

  /** One `UserNotification` row. */
  datatype Link = Link(user: Option<int>, notification: int)

  function ForNotification(n: int): Link -> bool
  {
    (l: Link) => l.notification == n
  }

  /** One link to `n` per user, in the users' order. */
  function LinksFor(users: seq<int>, n: int): (r: seq<Link>)
    ensures |r| == |users|
    ensures forall k :: 0 <= k < |users| ==> r[k] == Link(Some(users[k]), n)
  {
    seq(|users|, k requires 0 <= k < |users| => Link(Some(users[k]), n))
  }

  /**
   * Who receives the notification: every client when `send_to_all` is set
   * (nobody if the "Cliente" group is missing), the selected recipients
   * otherwise.
   */
  function Audience(sendToAll: bool, clients: Option<seq<int>>, recipients: seq<int>): (r: seq<int>)
    ensures sendToAll && clients.Some? ==> r == clients.value
    ensures sendToAll && clients.None? ==> r == []
    ensures !sendToAll ==> r == recipients
  {
    if sendToAll then (if clients.Some? then clients.value else []) else recipients
  }

  /** The links left after the edit's deletion: those of other notifications, or all of them on creation. */
  function Kept(links: seq<Link>, n: int, change: bool): (r: seq<Link>)
    ensures forall l :: l in r ==> l in links
    ensures change ==> forall l :: l in r ==> l.notification != n
  {
    if change then Filter(links, Not(ForNotification(n))) else links
  }

  /**
   * After `save_model`, the links of the saved notification are exactly one
   * per member of its audience, in order, provided that on creation no link
   * to it existed yet; the links of other notifications are untouched.
   */
  lemma SavedLinksAreTheAudience(links: seq<Link>, n: int, change: bool, audience: seq<int>, m: int)
    requires !change ==> forall l :: l in links ==> l.notification != n
    requires m != n
    ensures Filter(Kept(links, n, change) + LinksFor(audience, n), ForNotification(n)) == LinksFor(audience, n)
    ensures Filter(Kept(links, n, change) + LinksFor(audience, n), ForNotification(m)) == Filter(links, ForNotification(m))
  {
    var kept := Kept(links, n, change);
    var added := LinksFor(audience, n);
    FilterConcat(kept, added, ForNotification(n));
    FilterNone(kept, ForNotification(n));
    assert Filter(added, ForNotification(n)) == added by {
      FilterAll(added, ForNotification(n));
    }
    FilterConcat(kept, added, ForNotification(m));
    assert Filter(added, ForNotification(m)) == [] by {
      FilterNone(added, ForNotification(m));
    }
    if change {
      KeptSameForOthers(links, n, m);
    }
  }

  /** Deleting the links of `n` keeps the links of any other notification as they were. */
  lemma {:induction false} KeptSameForOthers(links: seq<Link>, n: int, m: int)
    requires m != n
    ensures Filter(Filter(links, Not(ForNotification(n))), ForNotification(m)) == Filter(links, ForNotification(m))
  {
    if links != [] {
      KeptSameForOthers(links[1..], n, m);
    }
  }

  /** The `UserNotification` table. */
  class Recipients {
    var links: seq<Link>

    constructor ()
      ensures links == []
    {
      links := [];
    }

    /**
     * `NotificationAdmin.save_model` after the notification `n` is saved:
     * on an edit its old links are deleted, then one link is created per
     * member of the audience.
     */
    method SaveNotification(n: int, change: bool, sendToAll: bool, clients: Option<seq<int>>, recipients: seq<int>)
      modifies this
      ensures links == Kept(old(links), n, change) + LinksFor(Audience(sendToAll, clients, recipients), n)
    {
      if change {
        links := Filter(links, Not(ForNotification(n)));
      }
      var audience := Audience(sendToAll, clients, recipients);
      ghost var base := links;
      var i := 0;
      while i < |audience|
        invariant 0 <= i <= |audience|
        invariant links == base + LinksFor(audience[..i], n)
      {
        links := links + [Link(Some(audience[i]), n)];
        i := i + 1;
      }
      assert audience[..i] == audience;
    }
  }

  /** The role memberships: user id to the ids of their groups. */
  class Memberships {
    var groups: map<int, set<int>>

    constructor ()
      ensures groups == map[]
    {
      groups := map[];
    }

    function GroupsOf(user: int): set<int>
      reads this
    {
      if user in groups then groups[user] else {}
    }

    /** `UserAdmin.save_model`: a user being added joins the chosen role group; an edit changes no membership. */
    method SaveUser(user: int, change: bool, role: Option<int>)
      modifies this
      ensures !change && role.Some? ==> groups == old(groups)[user := old(GroupsOf(user)) + {role.value}]
      ensures change || role.None? ==> groups == old(groups)
    {
      if !change && role.Some? {
        groups := groups[user := GroupsOf(user) + {role.value}];
      }
    }
  }
}
