/**
 * The request-counting server (main.go): a table from client address to the
 * number of `/check_ip` requests seen for it, with a statistics query and a
 * reset. Requests are taken one at a time, as the server's mutex serialises them.
 */
module IpCounter {

  /** The JSON body `/check_ip` answers with (main.go:62-66, 82-86). */
  datatype Response = Response(ip: string, lookupDuration: int, occurences: int)

  /** How many times `ip` occurs in `calls`. */
  function Occurrences(calls: seq<string>, ip: string): (n: nat)
    ensures n > 0 <==> ip in calls
    ensures n <= |calls|
  {
    if calls == [] then 0
    else Occurrences(calls[..|calls| - 1], ip) + (if calls[|calls| - 1] == ip then 1 else 0)
  }

  class IpTable {
    /** The `ips` map of main.go:13. */
    var ips: map<string, int>
    /** The addresses passed to `CheckIP` since the table was last made. */
    ghost var calls: seq<string>

    /** Each stored count is the number of requests for that address since the last clear. */
    ghost predicate Valid()
      reads this
    {
      && (forall ip :: ip in ips <==> ip in calls)
      && (forall ip :: ip in ips ==> ips[ip] == Occurrences(calls, ip))
    }

    /** Every stored count is at least one. */
    lemma CountsPositive()
      requires Valid()
      ensures forall ip :: ip in ips ==> ips[ip] >= 1
    {
    }

    /** `make(map[string]int)` at start-up (main.go:22). */
    constructor ()
      ensures Valid() && ips == map[] && calls == []
    {
      ips := map[];
      calls := [];
    }

    /**
     * `/check_ip` (main.go:46-97): counts one more request from `ip` and
     * answers the count as it was before. The lookup time is a clock reading
     * and is passed in.
     */
    method CheckIP(ip: string, lookupDuration: int) returns (resp: Response)
      requires Valid()
      modifies this
      ensures Valid()
      ensures calls == old(calls) + [ip]
      ensures resp == Response(ip, lookupDuration, Occurrences(old(calls), ip))
      ensures ip !in old(ips) ==> ips == old(ips)[ip := 1] && resp.occurences == 0
      ensures ip in old(ips) ==> ips == old(ips)[ip := old(ips)[ip] + 1] && resp.occurences == old(ips)[ip]
      ensures forall other :: other != ip ==>
        (other in ips <==> other in old(ips)) && (other in ips ==> ips[other] == old(ips)[other])
    {
      calls := calls + [ip];
      assert calls[..|calls| - 1] == old(calls);
      if ip !in ips {
        ips := ips[ip := 1];
        resp := Response(ip, lookupDuration, 0);
      } else {
        var count := ips[ip];
        ips := ips[ip := count + 1];
        resp := Response(ip, lookupDuration, count);
      }
    }

    /**
     * `/stats` (main.go:99-115): an address with the largest count, or
     * `("", 0)` for an empty table. Go visits a map in no fixed order, so the
     * next key is picked arbitrarily; among tied keys any one may be answered.
     */
    method ReturnHashMapStats() returns (mostFrequentIP: string, mostFrequentIPCount: int)
      requires Valid()
      ensures ips == map[] ==> mostFrequentIP == "" && mostFrequentIPCount == 0
      ensures ips != map[] ==>
        mostFrequentIP in ips && mostFrequentIPCount == ips[mostFrequentIP]
      ensures forall ip :: ip in ips ==> ips[ip] <= mostFrequentIPCount
    {
      CountsPositive();
      mostFrequentIP, mostFrequentIPCount := "", 0;
      var unvisited := ips.Keys;
      while unvisited != {}
        invariant unvisited <= ips.Keys
        invariant mostFrequentIPCount == 0 ==> mostFrequentIP == ""
        invariant mostFrequentIPCount != 0 ==>
          mostFrequentIP in ips && mostFrequentIPCount == ips[mostFrequentIP]
        invariant mostFrequentIPCount >= 0
        invariant forall ip :: ip in ips && ip !in unvisited ==> ips[ip] <= mostFrequentIPCount
        invariant ips != map[] && unvisited == {} ==> mostFrequentIPCount > 0
        decreases unvisited
      {
        var ip :| ip in unvisited;
        var count := ips[ip];
        if count > mostFrequentIPCount {
          mostFrequentIP, mostFrequentIPCount := ip, count;
        }
        unvisited := unvisited - {ip};
      }
      if ips != map[] {
        var some :| some in ips;
        assert ips[some] >= 1;
      }
    }

    /** `/clear` (main.go:117-121): replaces the table by an empty one. */
    method ClearHashMap()
      modifies this
      ensures Valid() && ips == map[] && calls == []
    {
      ips := map[];
      calls := [];
    }
  }
}
