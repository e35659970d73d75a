/**
 * Lists of opportunities: their ids, lookup by id (`Array.prototype.find`)
 * and the "<City>, <ST>" location format.
 */
module Listings {
  import opened JsString
  import opened Types

  /** The ids of a list of listings, in order. */
  function Ids(s: seq<Opportunity>): seq<string>
  {
    seq(|s|, i requires 0 <= i < |s| => s[i].id)
  }

  /** No two listings of `s` share an id. */
  predicate DistinctIds(s: seq<Opportunity>)
  {
    forall i, j | 0 <= i < j < |s| :: s[i].id != s[j].id
  }

  /** `Array.prototype.find` by id: a listing of `s` whose id is `id`,
      or `undefined` when none has it. */
  function Find(s: seq<Opportunity>, id: string): (r: Option<Opportunity>)
    ensures r.None? <==> id !in Ids(s)
    ensures r.Some? ==> r.value.id == id && r.value in s
  {
    if s == [] then None
    else if s[0].id == id then
      assert Ids(s)[0] == id;
      Some(s[0])
    else
      assert Ids(s) == [s[0].id] + Ids(s[1..]);
      Find(s[1..], id)
  }

  /** What `Find` returns is the first listing with the id: it sits at
      position `i`, and no listing before it has that id. */
  lemma {:induction false} FindFirst(s: seq<Opportunity>, id: string) returns (i: nat)
    requires Find(s, id).Some?
    ensures i < |s| && s[i] == Find(s, id).value
    ensures forall j | 0 <= j < i :: s[j].id != id
  {
    if s[0].id == id {
      i := 0;
    } else {
      var k := FindFirst(s[1..], id);
      i := k + 1;
      forall j | 0 <= j < i ensures s[j].id != id {
        if j > 0 {
          assert s[j] == s[1..][j - 1];
        }
      }
    }
  }

  /** In a list without repeated ids, looking up the id of any listing finds that listing. */
  lemma {:induction false} FindListed(s: seq<Opportunity>, i: nat)
    requires DistinctIds(s) && i < |s|
    ensures Find(s, s[i].id) == Some(s[i])
  {
    if i > 0 {
      assert DistinctIds(s[1..]) by {
        forall a, b | 0 <= a < b < |s[1..]| ensures s[1..][a].id != s[1..][b].id {
          assert s[1..][a] == s[a + 1] && s[1..][b] == s[b + 1];
        }
      }
      FindListed(s[1..], i - 1);
    }
  }

  /** A list whose ids are a list of distinct strings has no repeated id. */
  lemma DistinctIdsFromIds(s: seq<Opportunity>, ids: seq<string>)
    requires Ids(s) == ids
    requires forall i, j | 0 <= i < j < |ids| :: ids[i] != ids[j]
    ensures DistinctIds(s)
  {
    forall i, j | 0 <= i < j < |s| ensures s[i].id != s[j].id {
      assert s[i].id == ids[i] && s[j].id == ids[j];
    }
  }

  /** A two-letter upper-case state code such as "SP". */
  predicate IsStateCode(code: string)
  {
    |code| == 2 && 'A' <= code[0] <= 'Z' && 'A' <= code[1] <= 'Z'
  }

  /** The location format: exactly one comma, and after it, once trimmed, a state code. */
  predicate IsCityState(location: string)
  {
    var parts := Split(location, ',');
    |parts| == 2 && IsStateCode(Trim(parts[1]))
  }

  /** A location written "<City>, <ST>" splits at its one comma into the
      city and the state code with one leading space. */
  lemma CityState(location: string, city: string, st: string)
    requires location == city + ", " + st
    requires ',' !in city && IsStateCode(st)
    ensures Split(location, ',') == [city, " " + st]
    ensures IsCityState(location)
  {
    SplitCityState(city, st);
    TrimStateCode(st);
  }

  lemma SplitCityState(city: string, st: string)
    requires ',' !in city && IsStateCode(st)
    ensures Split(city + ", " + st, ',') == [city, " " + st]
  {
    assert city + ", " + st == city + [','] + (" " + st);
    SplitAtFirst(city, ',', " " + st);
    SplitNoSep(" " + st, ',');
  }

  /** Trimming the space in front of a state code gives the code back. */
  lemma TrimStateCode(st: string)
    requires IsStateCode(st)
    ensures Trim(" " + st) == st
  {
    CodeTrimStart(st);
    CodeTrimEnd(st);
  }

  lemma CodeTrimStart(st: string)
    requires IsStateCode(st)
    ensures TrimStart(" " + st) == st
  {
    TrimStartSpace(st);
    TrimStartKeeps(st);
  }

  lemma CodeTrimEnd(st: string)
    requires IsStateCode(st)
    ensures TrimEnd(st) == st
  {
    TrimEndKeeps(st);
  }
}
