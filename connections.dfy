/** `buildConnections`: arcs from each company to the research centers,
 *  chosen by a fixed rule on coordinates so that every load draws the same
 *  arcs. */
module Connections {
  import opened Records

  function Abs(x: real): (r: real)
    ensures r >= 0.0 && (r == x || r == -x)
  {
    if x < 0.0 then -x else x
  }

  /** `(|company.lat·1000| + |center.lng·1000|) % 100`: the remainder of a
   *  non-negative number, so the floor and truncating quotients agree. */
  function Seed(company: Company, center: ResearchCenter): (s: real)
    ensures 0.0 <= s < 100.0
  {
    var x := Abs(company.lat * 1000.0) + Abs(center.lng * 1000.0);
    x - 100.0 * (x / 100.0).Floor as real
  }

  /** The squared distance in degrees; the distance exceeds 10 exactly when
   *  its square exceeds 100. */
  function DistanceSquared(company: Company, center: ResearchCenter): real {
    (company.lat - center.lat) * (company.lat - center.lat) + (company.lng - center.lng) * (company.lng - center.lng)
  }

  predicate Connected(company: Company, center: ResearchCenter) {
    DistanceSquared(company, center) > 100.0 && Seed(company, center) > 45.0
  }

  /** The arc record: the company's position, colour and name, the
   *  center's position and name. */
  function Arc(company: Company, center: ResearchCenter): Connection {
    Connection(company.lat, company.lng, center.lat, center.lng, company.color, company.name, center.name)
  }

  /** The arcs one company gets, in the order of the centers. */
  function ArcsFrom(company: Company, centers: seq<ResearchCenter>): seq<Connection> {
    if centers == [] then []
    else
      var last := centers[|centers| - 1];
      ArcsFrom(company, centers[..|centers| - 1]) + (if Connected(company, last) then [Arc(company, last)] else [])
  }

  /** All arcs, company by company. */
  function Arcs(companies: seq<Company>, centers: seq<ResearchCenter>): seq<Connection> {
    if companies == [] then []
    else Arcs(companies[..|companies| - 1], centers) + ArcsFrom(companies[|companies| - 1], centers)
  }

  /** `buildConnections`: for each company, for each center, push the arc
   *  when the pair qualifies. */
  method BuildConnections(companies: seq<Company>, centers: seq<ResearchCenter>) returns (arcs: seq<Connection>)
    ensures arcs == Arcs(companies, centers)
  {
    arcs := [];
    for i := 0 to |companies|
      invariant arcs == Arcs(companies[..i], centers)
    {
      var company := companies[i];
      ghost var before := arcs;
      for j := 0 to |centers|
        invariant arcs == before + ArcsFrom(company, centers[..j])
      {
        assert centers[..j + 1][..j] == centers[..j];
        var center := centers[j];
        if Connected(company, center) {
          arcs := arcs + [Arc(company, center)];
        }
      }
      assert centers[..|centers|] == centers;
      assert companies[..i + 1][..i] == companies[..i];
    }
    assert companies[..|companies|] == companies;
  }

  /** Every arc of one company goes to a center it qualifies for. */
  lemma {:induction false} ArcsFromOrigin(company: Company, centers: seq<ResearchCenter>, a: Connection) returns (j: nat)
    requires a in ArcsFrom(company, centers)
    ensures j < |centers| && Connected(company, centers[j]) && a == Arc(company, centers[j])
  {
    var init := centers[..|centers| - 1];
    if a in ArcsFrom(company, init) {
      j := ArcsFromOrigin(company, init, a);
    } else {
      j := |centers| - 1;
    }
  }

  /** A company gets an arc to every center it qualifies for. */
  lemma {:induction false} ArcsFromComplete(company: Company, centers: seq<ResearchCenter>, j: nat)
    requires j < |centers| && Connected(company, centers[j])
    ensures Arc(company, centers[j]) in ArcsFrom(company, centers)
  {
    var init := centers[..|centers| - 1];
    if j < |init| {
      assert init[j] == centers[j];
      ArcsFromComplete(company, init, j);
    }
  }

  /** Every arc is drawn for a qualifying (company, center) pair and copies
   *  the pair's positions, the company's colour and both names. */
  lemma {:induction false} ArcOrigin(companies: seq<Company>, centers: seq<ResearchCenter>, a: Connection) returns (i: nat, j: nat)
    requires a in Arcs(companies, centers)
    ensures i < |companies| && j < |centers| && Connected(companies[i], centers[j])
    ensures a == Arc(companies[i], centers[j])
  {
    var init := companies[..|companies| - 1];
    if a in Arcs(init, centers) {
      i, j := ArcOrigin(init, centers, a);
    } else {
      i := |companies| - 1;
      j := ArcsFromOrigin(companies[i], centers, a);
    }
  }

  /** Every qualifying (company, center) pair gets its arc. */
  lemma {:induction false} ArcsComplete(companies: seq<Company>, centers: seq<ResearchCenter>, i: nat, j: nat)
    requires i < |companies| && j < |centers| && Connected(companies[i], centers[j])
    ensures Arc(companies[i], centers[j]) in Arcs(companies, centers)
  {
    var init := companies[..|companies| - 1];
    if i < |init| {
      assert init[i] == companies[i];
      ArcsComplete(init, centers, i, j);
    } else {
      ArcsFromComplete(companies[i], centers, j);
    }
  }

  lemma {:induction false} ArcsFromCount(company: Company, centers: seq<ResearchCenter>)
    ensures |ArcsFrom(company, centers)| <= |centers|
  {
    if centers != [] {
      ArcsFromCount(company, centers[..|centers| - 1]);
    }
  }

  /** At most one arc per (company, center) pair. */
  lemma {:induction false} ArcsCount(companies: seq<Company>, centers: seq<ResearchCenter>)
    ensures |Arcs(companies, centers)| <= |companies| * |centers|
  {
    if companies != [] {
      var n := |companies|;
      var init := companies[..n - 1];
      ArcsCount(init, centers);
      ArcsFromCount(companies[n - 1], centers);
      assert |Arcs(companies, centers)| == |Arcs(init, centers)| + |ArcsFrom(companies[n - 1], centers)|;
      MulSucc(n - 1, |centers|);
    }
  }

  lemma MulSucc(a: nat, b: nat)
    ensures a * b + b == (a + 1) * b
  {
  }

  /** Company-major order: the arcs of a list of companies are those of its
   *  first part followed by those of the rest. */
  lemma {:induction false} ArcsAppend(a: seq<Company>, b: seq<Company>, centers: seq<ResearchCenter>)
    ensures Arcs(a + b, centers) == Arcs(a, centers) + Arcs(b, centers)
    decreases |b|
  {
    if b == [] {
      assert a + b == a;
    } else {
      var init, last := b[..|b| - 1], b[|b| - 1];
      var ab := a + b;
      assert ab[..|ab| - 1] == a + init && ab[|ab| - 1] == last;
      assert Arcs(ab, centers) == Arcs(a + init, centers) + ArcsFrom(last, centers);
      ArcsAppend(a, init, centers);
      assert Arcs(b, centers) == Arcs(init, centers) + ArcsFrom(last, centers);
    }
  }
}
