/**
 * Zeroconf service identity and the set of browsed service types
 * (CZeroconfBrowser). A service is identified by name, type and domain;
 * the resolved ip and port do not take part in comparisons.
 */
module Zeroconf {

  datatype Service = Service(name: string, serviceType: string, domain: string, ip: string, port: int)

  /** std::string's operator<: lexicographic on character codes, a proper prefix first. */
  function StrLess(a: string, b: string): (r: bool)
    ensures r ==> a != b
    ensures |a| == 0 ==> (r <==> |b| > 0)
    ensures |a| < |b| && b[..|a|] == a ==> r
  {
    if |b| == 0 then false
    else if |a| == 0 then true
    else if a[0] != b[0] then a[0] < b[0]
    else StrLess(a[1..], b[1..])
  }

  lemma {:induction false} StrLessIrreflexive(a: string)
    ensures !StrLess(a, a)
  {
    if |a| > 0 {
      StrLessIrreflexive(a[1..]);
    }
  }

  lemma {:induction false} StrLessAsymmetric(a: string, b: string)
    ensures StrLess(a, b) ==> !StrLess(b, a)
  {
    if |a| > 0 && |b| > 0 && a[0] == b[0] {
      StrLessAsymmetric(a[1..], b[1..]);
    }
  }

  lemma {:induction false} StrLessTransitive(a: string, b: string, c: string)
    ensures StrLess(a, b) && StrLess(b, c) ==> StrLess(a, c)
  {
    if |a| > 0 && |b| > 0 && |c| > 0 && a[0] == b[0] && b[0] == c[0] {
      StrLessTransitive(a[1..], b[1..], c[1..]);
    }
  }

  /** Two different strings are ordered one way or the other. */
  lemma {:induction false} StrLessTotal(a: string, b: string)
    ensures a != b ==> StrLess(a, b) || StrLess(b, a)
  {
    if |a| > 0 && |b| > 0 && a[0] == b[0] {
      StrLessTotal(a[1..], b[1..]);
      if a[1..] == b[1..] {
        assert a == [a[0]] + a[1..] && b == [b[0]] + b[1..];
      }
    }
  }

  /** operator==: name, type and domain agree. */
  function Same(x: Service, y: Service): (r: bool)
    ensures r <==> x.(ip := y.ip, port := y.port) == y
  {
    x.name == y.name && x.serviceType == y.serviceType && x.domain == y.domain
  }

  /** Equality ignores ip and port, and is an equivalence. */
  lemma SameIsEquivalence(x: Service, y: Service, z: Service)
    ensures Same(x, y) <==> (x.name, x.serviceType, x.domain) == (y.name, y.serviceType, y.domain)
    ensures Same(x, x.(ip := y.ip, port := y.port))
    ensures Same(x, x)
    ensures Same(x, y) ==> Same(y, x)
    ensures Same(x, y) && Same(y, z) ==> Same(x, z)
  {
  }

  /** operator< as written: each field is tried on its own, not only when the earlier ones tie. */
  function LessAsWritten(x: Service, y: Service): (r: bool)
    ensures StrLess(x.name, y.name) ==> r
    ensures r <==> StrLess(x.name, y.name) || StrLess(x.serviceType, y.serviceType) || StrLess(x.domain, y.domain)
  {
    if StrLess(x.name, y.name) then true
    else if StrLess(x.serviceType, y.serviceType) then true
    else if StrLess(x.domain, y.domain) then true
    else false
  }

  /** As written, `<` is irreflexive and equal services are unordered. */
  lemma LessAsWrittenIrreflexive(x: Service, y: Service)
    ensures !LessAsWritten(x, x)
    ensures Same(x, y) ==> !LessAsWritten(x, y) && !LessAsWritten(y, x)
  {
    StrLessIrreflexive(x.name);
    StrLessIrreflexive(x.serviceType);
    StrLessIrreflexive(x.domain);
  }

  /** As written, `<` is not asymmetric: two services can each be less than the other. */
  lemma LessAsWrittenNotAsymmetric()
    ensures var x := Service("b", "a", "local", "", 0);
      var y := Service("a", "b", "local", "", 0);
      LessAsWritten(x, y) && LessAsWritten(y, x)
  {
    var x := Service("b", "a", "local", "", 0);
    var y := Service("a", "b", "local", "", 0);
    assert StrLess(x.serviceType, y.serviceType);
    assert StrLess(y.name, x.name);
  }

  /** The intended order: lexicographic on (name, type, domain). */
  function Less(x: Service, y: Service): (r: bool)
    ensures StrLess(x.name, y.name) ==> r
    ensures r ==> LessAsWritten(x, y)
  {
    if StrLess(x.name, y.name) then true
    else if x.name != y.name then false
    else if StrLess(x.serviceType, y.serviceType) then true
    else if x.serviceType != y.serviceType then false
    else StrLess(x.domain, y.domain)
  }

  /**
   * Less is a strict total order on identities: irreflexive, asymmetric,
   * transitive, and two services are unordered exactly when they are equal.
   */
  lemma LessIsStrictOrder(x: Service, y: Service, z: Service)
    ensures !Less(x, x)
    ensures Less(x, y) ==> !Less(y, x)
    ensures Less(x, y) && Less(y, z) ==> Less(x, z)
    ensures !Less(x, y) && !Less(y, x) <==> Same(x, y)
  {
    StrLessIrreflexive(x.name);
    StrLessIrreflexive(x.serviceType);
    StrLessIrreflexive(x.domain);
    StrLessAsymmetric(x.name, y.name);
    StrLessAsymmetric(x.serviceType, y.serviceType);
    StrLessAsymmetric(x.domain, y.domain);
    StrLessTransitive(x.name, y.name, z.name);
    StrLessTransitive(x.serviceType, y.serviceType, z.serviceType);
    StrLessTransitive(x.domain, y.domain, z.domain);
    StrLessTotal(x.name, y.name);
    StrLessTotal(x.serviceType, y.serviceType);
    StrLessTotal(x.domain, y.domain);
    if Less(x, y) && Less(y, z) {
      if x.name == y.name && y.name == z.name && x.serviceType == y.serviceType && y.serviceType == z.serviceType {
        assert StrLess(x.domain, z.domain);
      }
    }
  }

  /** Inserting a service type: the new set and whether it was not there before. */
  function Inserted(services: set<string>, serviceType: string): (r: (set<string>, bool))
    ensures r.0 == services + {serviceType}
    ensures r.1 <==> serviceType !in services
    ensures !r.1 ==> r.0 == services
  {
    if serviceType in services then (services, false) else (services + {serviceType}, true)
  }

  /** Removing a service type: the new set and whether it was there. */
  function Removed(services: set<string>, serviceType: string): (r: (set<string>, bool))
    ensures r.0 == services - {serviceType}
    ensures r.1 <==> serviceType in services
    ensures serviceType !in r.0
  {
    if serviceType in services then (services - {serviceType}, true) else (services, false)
  }

  /** Adding the same type twice: the second add reports that it was already there and changes nothing. */
  lemma AddTwice(services: set<string>, serviceType: string)
    ensures var (once, _) := Inserted(services, serviceType);
      Inserted(once, serviceType) == (once, false)
  {
  }

  /** Adding a new type and removing it again restores the set. */
  lemma AddThenRemove(services: set<string>, serviceType: string)
    requires serviceType !in services
    ensures var (once, added) := Inserted(services, serviceType);
      added && Removed(once, serviceType) == (services, true)
  {
  }

  class ZeroconfBrowser {
    var services: set<string>

    constructor ()
      ensures services == {}
    {
      services := {};
    }

    method AddServiceType(serviceType: string) returns (added: bool)
      modifies this
      ensures (services, added) == Inserted(old(services), serviceType)
    {
      if serviceType in services {
        return false;
      }
      services := services + {serviceType};
      added := true;
    }

    method RemoveServiceType(serviceType: string) returns (removed: bool)
      modifies this
      ensures (services, removed) == Removed(old(services), serviceType)
    {
      removed := serviceType in services;
      services := services - {serviceType};
    }
  }
}
