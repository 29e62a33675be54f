/**
 * The legal skill registry: a map from skill name to its record, kept in
 * memory. Loading and saving the JSON file are the boundary of the model
 * (the registry a command starts from is the `skills` field), and the
 * current time is passed in as `now`.
 */
module SkillRegistry {
  import opened Wrappers
  import opened Text
  import Sorting

  /**
   * One registered skill. A missing criterion is `None` (JSON `null`);
   * a missing `created_at` is the empty string.
   */
  datatype SkillInfo = SkillInfo(
    domain: Option<string>,
    action: Option<string>,
    subject: Option<string>,
    jurisdiction: Option<string>,
    location: string,
    usageCount: nat,
    successCount: nat,
    createdAt: string,
    lastUsed: Option<string>,
    updatedAt: string)

  /** The four criteria a skill or a request is described by. */
  datatype Components = Components(
    domain: Option<string>,
    action: Option<string>,
    subject: Option<string>,
    jurisdiction: Option<string>)

  datatype RegistryError = SkillNotFound(name: string)

  /** A `find` result: the skill, its record and its score. */
  datatype Match = Match(name: string, info: SkillInfo, score: nat)

  /** A `list` result: the skill and its record. */
  datatype Listing = Listing(name: string, info: SkillInfo)

  /** Python truthiness of an optional string: present and not empty. */
  predicate Given(o: Option<string>) {
    o.Some? && o.value != ""
  }

  /** A criterion agrees with a record when it is given and the record holds the same value. */
  predicate Agrees(criterion: Option<string>, stored: Option<string>) {
    Given(criterion) && stored == criterion
  }

  function Weight(criterion: Option<string>, stored: Option<string>, w: nat): nat {
    if Agrees(criterion, stored) then w else 0
  }

  /**
   * The weighted match score: domain 2, action 2, subject 3,
   * jurisdiction 1. It is positive exactly when some criterion agrees.
   */
  function MatchScore(q: Components, info: SkillInfo): (score: nat)
    ensures score <= 8
    ensures score > 0 <==>
              Agrees(q.domain, info.domain) || Agrees(q.action, info.action)
              || Agrees(q.subject, info.subject) || Agrees(q.jurisdiction, info.jurisdiction)
  {
    Weight(q.domain, info.domain, 2) + Weight(q.action, info.action, 2)
    + Weight(q.subject, info.subject, 3) + Weight(q.jurisdiction, info.jurisdiction, 1)
  }

  /** A request that gives no criterion matches no skill. */
  lemma NoCriteriaNoScore(info: SkillInfo)
    ensures MatchScore(Components(None, None, None, None), info) == 0
  {
  }

  /**
   * The record `register_skill` writes for a skill whose previous record
   * is `prior`: the given criteria, the location or "unknown", and the
   * previous counters, creation time and last use, or fresh ones.
   */
  function Registered(prior: Option<SkillInfo>, c: Components, location: Option<string>, now: string): (info: SkillInfo)
    ensures info.domain == c.domain && info.action == c.action
    ensures info.subject == c.subject && info.jurisdiction == c.jurisdiction
    ensures info.location == (if Given(location) then location.value else "unknown")
    ensures prior.None? ==>
              info.usageCount == 0 && info.successCount == 0 && info.createdAt == now && info.lastUsed == None
    ensures prior.Some? ==>
              && info.usageCount == prior.value.usageCount
              && info.successCount == prior.value.successCount
              && info.lastUsed == prior.value.lastUsed
              && info.createdAt == (if prior.value.createdAt != "" then prior.value.createdAt else now)
    ensures info.updatedAt == now
  {
    var usage := if prior.Some? then prior.value.usageCount else 0;
    var success := if prior.Some? then prior.value.successCount else 0;
    var created := if prior.Some? && prior.value.createdAt != "" then prior.value.createdAt else now;
    var lastUsed := if prior.Some? then prior.value.lastUsed else None;
    SkillInfo(c.domain, c.action, c.subject, c.jurisdiction,
              if Given(location) then location.value else "unknown",
              usage, success, created, lastUsed, now)
  }

  /**
   * The record after one use: one more use, one more success when it
   * succeeded, the last use now, and nothing else changed. A record with
   * no more successes than uses keeps that property.
   */
  function Used(info: SkillInfo, success: bool, now: string): (u: SkillInfo)
    ensures u.usageCount == info.usageCount + 1
    ensures u.successCount == if success then info.successCount + 1 else info.successCount
    ensures info.successCount <= info.usageCount ==> u.successCount <= u.usageCount
    ensures u.lastUsed == Some(now)
    ensures u.(usageCount := info.usageCount, successCount := info.successCount, lastUsed := info.lastUsed) == info
  {
    info.(usageCount := info.usageCount + 1,
          successCount := if success then info.successCount + 1 else info.successCount,
          lastUsed := Some(now))
  }

  /** `find_skills` order: higher score first, then higher usage count. */
  predicate RanksBefore(a: Match, b: Match) {
    a.score > b.score || (a.score == b.score && a.info.usageCount >= b.info.usageCount)
  }

  /** The sort key of `list_skills --sort recent`: the last use, or "" when there is none. */
  function LastUsedKey(e: Listing): string {
    e.info.lastUsed.GetOr("")
  }

  predicate ByName(a: Listing, b: Listing) { LexLe(a.name, b.name) }

  predicate ByUsage(a: Listing, b: Listing) { a.info.usageCount >= b.info.usageCount }

  predicate ByRecent(a: Listing, b: Listing) { LexLe(LastUsedKey(b), LastUsedKey(a)) }

  /** The order `list_skills` sorts by: "usage", "recent", or by name for anything else. */
  function ListOrder(sortBy: string): (Listing, Listing) -> bool {
    if sortBy == "usage" then ByUsage
    else if sortBy == "recent" then ByRecent
    else ByName
  }

  lemma RanksBeforeIsPreorder()
    ensures Sorting.Total(RanksBefore) && Sorting.Transitive(RanksBefore)
  {
  }

  lemma ListOrderIsPreorder(sortBy: string)
    ensures Sorting.Total(ListOrder(sortBy)) && Sorting.Transitive(ListOrder(sortBy))
  {
    forall a: string, b: string ensures LexLe(a, b) || LexLe(b, a) {
      LexLeTotal(a, b);
    }
    forall a: string, b: string, c: string | LexLe(a, b) && LexLe(b, c) ensures LexLe(a, c) {
      LexLeTransitive(a, b, c);
    }
  }

  class Registry {
    /** `registry["skills"]` */
    var skills: map<string, SkillInfo>

    /** No skill has more successes than uses. */
    ghost predicate Consistent()
      reads this
    {
      forall n :: n in skills ==> skills[n].successCount <= skills[n].usageCount
    }

    function Lookup(name: string): (r: Option<SkillInfo>)
      reads this
      ensures r.Some? <==> name in skills
      ensures r.Some? ==> r.value == skills[name]
    {
      if name in skills then Some(skills[name]) else None
    }

    /** The registry `load_registry` yields when there is no file. */
    constructor()
      ensures skills == map[]
      ensures Consistent()
    {
      skills := map[];
    }

    /**
     * `register_skill`: creates or overwrites the record of `name`,
     * keeping its counters, and touches no other skill.
     */
    method Register(name: string, c: Components, location: Option<string>, now: string)
      modifies this
      ensures skills == old(skills)[name := Registered(old(Lookup(name)), c, location, now)]
      ensures name in skills
      ensures forall n :: n in old(skills) && n != name ==> n in skills && skills[n] == old(skills)[n]
      ensures old(Consistent()) ==> Consistent()
    {
      var prior := Lookup(name);
      skills := skills[name := Registered(prior, c, location, now)];
    }

    /**
     * `use_skill`: an unknown name is an error and changes nothing;
     * otherwise the skill's counters and last use are updated and no other
     * skill is touched.
     */
    method Use(name: string, success: bool, now: string) returns (r: Result<(), RegistryError>)
      modifies this
      ensures name !in old(skills) ==> r == Err(SkillNotFound(name)) && skills == old(skills)
      ensures name in old(skills) ==> r.Ok? && skills == old(skills)[name := Used(old(skills)[name], success, now)]
      ensures old(Consistent()) ==> Consistent()
    {
      if name !in skills {
        return Err(SkillNotFound(name));
      }
      var info := skills[name];
      skills := skills[name := Used(info, success, now)];
      r := Ok(());
    }

    /**
     * `remove_skill`: an unknown name is an error and changes nothing;
     * otherwise exactly that skill is deleted.
     */
    method Remove(name: string) returns (r: Result<(), RegistryError>)
      modifies this
      ensures name !in old(skills) ==> r == Err(SkillNotFound(name)) && skills == old(skills)
      ensures name in old(skills) ==> r.Ok? && skills == old(skills) - {name}
      ensures old(Consistent()) ==> Consistent()
    {
      if name !in skills {
        return Err(SkillNotFound(name));
      }
      skills := skills - {name};
      r := Ok(());
    }

    /** The `find_skills` entry of skill `name`. */
    function Entry(q: Components, name: string): Match
      reads this
      requires name in skills
    {
      Match(name, skills[name], MatchScore(q, skills[name]))
    }

    /**
     * `find_skills`: every skill with a positive score exactly once, with
     * its record and score, and nothing else; ordered by score and then
     * usage count, highest first.
     */
    method Find(q: Components) returns (matches: seq<Match>)
      ensures forall m :: m in matches ==> m.name in skills && m == Entry(q, m.name) && m.score > 0
      ensures forall n :: n in skills ==>
                multiset(matches)[Entry(q, n)] == if MatchScore(q, skills[n]) > 0 then 1 else 0
      ensures Sorting.Sorted(matches, RanksBefore)
    {
      var found: seq<Match> := [];
      var pending := skills.Keys;
      while pending != {}
        invariant pending <= skills.Keys
        invariant forall m :: m in found ==> m.name in skills.Keys - pending && m == Entry(q, m.name) && m.score > 0
        invariant forall n :: n in skills.Keys - pending ==>
                    multiset(found)[Entry(q, n)] == if MatchScore(q, skills[n]) > 0 then 1 else 0
        decreases pending
      {
        var name :| name in pending;
        var info := skills[name];
        var score := MatchScore(q, info);
        if score > 0 {
          assert Entry(q, name) !in found;
          found := found + [Match(name, info, score)];
        }
        pending := pending - {name};
      }
      RanksBeforeIsPreorder();
      matches := Sorting.Sort(found, RanksBefore);
      forall m | m in matches ensures m in found {
        assert m in multiset(matches);
      }
    }

    /** The `list_skills` entry of skill `name`. */
    function Listed(name: string): Listing
      reads this
      requires name in skills
    {
      Listing(name, skills[name])
    }

    /**
     * `list_skills`: every registered skill exactly once, with its record,
     * ordered by `ListOrder(sortBy)`.
     */
    method List(sortBy: string) returns (listed: seq<Listing>)
      ensures forall e :: e in listed ==> e.name in skills && e == Listed(e.name)
      ensures forall n :: n in skills ==> multiset(listed)[Listed(n)] == 1
      ensures Sorting.Sorted(listed, ListOrder(sortBy))
    {
      var all: seq<Listing> := [];
      var pending := skills.Keys;
      while pending != {}
        invariant pending <= skills.Keys
        invariant forall e :: e in all ==> e.name in skills.Keys - pending && e == Listed(e.name)
        invariant forall n :: n in skills.Keys - pending ==> multiset(all)[Listed(n)] == 1
        decreases pending
      {
        var name :| name in pending;
        assert Listed(name) !in all;
        all := all + [Listing(name, skills[name])];
        pending := pending - {name};
      }
      ListOrderIsPreorder(sortBy);
      listed := Sorting.Sort(all, ListOrder(sortBy));
      forall e | e in listed ensures e in all {
        assert e in multiset(listed);
      }
    }
  }
}
