/**
  `createCollection` (src/common/rucio/helpers.py): make sure a dataset or container
  DID exists in a scope, adding it only when the scope's listing does not hold it yet.
  The Rucio catalogue it talks to is an in-memory set of DID strings.
 */
module Helpers {
  import opened Wrappers

  /** The collection name: the given one, else today's date, as `container_<date>` for a container. */
  function CollectionName(name: Option<string>, collectionType: string, today: string): string
  {
    match name
    case Some(n) => n
    case None => if collectionType == "CONTAINER" then "container_" + today else today
  }

  /** `today` is a `%d-%m-%Y` date: it begins with a digit. */
  predicate DateStamp(today: string)
  {
    |today| >= 1 && '0' <= today[0] <= '9'
  }

  /**
    An explicit name is used unchanged; a default name ends in today's date and carries
    the `container_` prefix exactly when the type is CONTAINER.
   */
  lemma CollectionNameMeans(name: Option<string>, collectionType: string, today: string)
    requires DateStamp(today)
    ensures name.Some? ==> CollectionName(name, collectionType, today) == name.value
    ensures name.None? ==>
      var n := CollectionName(name, collectionType, today);
      |n| >= |today| && n[|n| - |today|..] == today
      && ((|n| >= 10 && n[..10] == "container_") <==> collectionType == "CONTAINER")
  {
    if name.None? {
      var n := CollectionName(name, collectionType, today);
      if collectionType == "CONTAINER" {
        assert n[|n| - |today|..] == today;
      } else {
        assert n == today;
        if |n| >= 10 {
          assert n[..10][0] == n[0] != 'c';
        }
      }
    }
  }

  /** What a `createCollection` call returns and the catalogue it leaves. */
  datatype Created = Created(did: Option<string>, dids: set<string>, added: seq<(string, string)>)

  /**
    The whole call on a catalogue `dids`: a failed listing or a failed `addDID` gives
    False (`None`); a DID already listed is returned without adding; otherwise it is
    added, with its type, and returned.
   */
  function Create(dids: set<string>, added: seq<(string, string)>, listFails: bool, addFails: bool,
                  scope: string, name: Option<string>, collectionType: string, today: string): Created
  {
    var did := scope + ":" + CollectionName(name, collectionType, today);
    if listFails then Created(None, dids, added)
    else if did in dids then Created(Some(did), dids, added)
    else if addFails then Created(None, dids, added)
    else Created(Some(did), dids + {did}, added + [(did, collectionType)])
  }

  /**
    A successful call returns `scope:name`, which is then in the catalogue; at most that
    one DID is added; and calling again adds nothing and returns the same DID.
   */
  lemma CreateIdempotent(dids: set<string>, added: seq<(string, string)>, listFails: bool, addFails: bool,
                         scope: string, name: Option<string>, collectionType: string, today: string)
    ensures var c := Create(dids, added, listFails, addFails, scope, name, collectionType, today);
      (c.did.Some? ==> c.did.value == scope + ":" + CollectionName(name, collectionType, today)
                       && c.did.value in c.dids)
      && dids <= c.dids && |c.dids - dids| <= 1
      && (c.did.Some? ==>
            Create(c.dids, c.added, listFails, addFails, scope, name, collectionType, today)
            == Created(c.did, c.dids, c.added))
  {
    var c := Create(dids, added, listFails, addFails, scope, name, collectionType, today);
    var did := scope + ":" + CollectionName(name, collectionType, today);
    if !listFails && did !in dids && !addFails {
      assert c.dids - dids == {did};
    } else {
      assert c.dids - dids == {};
    }
  }

  /** The DIDs a Rucio instance holds, and whether its listing or adding fails. */
  class Catalogue {
    var dids: set<string>
    /** Every `addDID(did, type)` call, in order. */
    var added: seq<(string, string)>
    const listFails: bool
    const addFails: bool

    constructor (dids: set<string>, listFails: bool, addFails: bool)
      ensures this.dids == dids && added == []
      ensures this.listFails == listFails && this.addFails == addFails
    {
      this.dids := dids;
      added := [];
      this.listFails := listFails;
      this.addFails := addFails;
    }

    /** `createCollection(loggerName, scope, name, collectionType)`. */
    method CreateCollection(scope: string, name: Option<string>, collectionType: string, today: string)
      returns (did: Option<string>)
      modifies this
      ensures Created(did, dids, added)
        == Create(old(dids), old(added), listFails, addFails, scope, name, collectionType, today)
    {
      var n := name.GetOr(if collectionType == "CONTAINER" then "container_" + today else today);
      var d := scope + ":" + n;
      if listFails {
        return None;
      }
      if d !in dids {
        if addFails {
          return None;
        }
        dids := dids + {d};
        added := added + [(d, collectionType)];
      }
      return Some(d);
    }
  }
}
