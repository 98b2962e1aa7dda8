/**
 * Schnorr proofs and equality of logarithms (packages/crypto/src/sigma.ts). A point is a pair of
 * coefficients over the two independent generators `G` and `H`; a challenge is any hash of the
 * statement and the first message.
 */
module Sigma {
  import opened Results
  import opened Group

  /** `g` times `G` plus `h` times `H`. */
  datatype Point = Point(g: int, h: int)

  const G_POINT := Point(1, 0)
  const H_POINT := Point(0, 1)
  const ZERO_POINT := Point(0, 0)

  predicate IsPoint(p: Point) {
    Canonical(p.g) && Canonical(p.h)
  }

  function Scale(p: Point, scalar: int): (r: Point)
    ensures IsPoint(r)
  {
    Point(ScalePoint(p.g, scalar), ScalePoint(p.h, scalar))
  }

  function Add(a: Point, b: Point): (r: Point)
    ensures IsPoint(r)
  {
    Point(AddPoints(a.g, b.g), AddPoints(a.h, b.h))
  }

  function Subtract(a: Point, b: Point): (r: Point)
    ensures IsPoint(r)
  {
    Point(SubtractPoints(a.g, b.g), SubtractPoints(a.h, b.h))
  }

  // ---- the equations, on one coefficient ----

  lemma SameTrans(x: int, y: int, z: int)
    requires Same(x, y) && Same(y, z)
    ensures Same(x, z)
  {
  }

  /** An honest response answers its challenge. */
  lemma ResponseAnswers(base: int, secret: int, nonce: int, challenge: int)
    ensures ScalePoint(base, ModScalar(nonce + challenge * secret))
         == AddPoints(ScalePoint(base, nonce), ScalePoint(ScalePoint(base, secret), challenge))
  {
    hide ModScalar;
    var z, first, point := nonce + challenge * secret, ScalePoint(base, nonce), ScalePoint(base, secret);
    ModIsSame(z);
    MulSame(base, base, ModScalar(z), z);
    MulSame(point, base * secret, challenge, challenge);
    AddSame(first, base * nonce, ScalePoint(point, challenge), base * secret * challenge);
    assert base * z == base * nonce + base * secret * challenge by {
      Expand(base, nonce, challenge, secret);
    }
    CanonicalSame(ScalePoint(base, ModScalar(z)), AddPoints(first, ScalePoint(point, challenge)));
  }

  lemma Expand(b: int, n: int, e: int, x: int)
    ensures b * (n + e * x) == b * n + b * x * e
  {
    assert b * (n + e * x) == b * n + b * (e * x);
    assert b * (e * x) == b * x * e;
  }

  /** A simulated first message is what the response and challenge leave. */
  lemma SimulatedAnswers(base: int, point: int, challenge: int, response: int)
    ensures ScalePoint(base, response)
         == AddPoints(SubtractPoints(ScalePoint(base, response), ScalePoint(point, challenge)),
                      ScalePoint(point, challenge))
  {
    hide ModScalar;
    var a, b := ScalePoint(base, response), ScalePoint(point, challenge);
    AddSame(SubtractPoints(a, b), a - b, b, b);
    assert a - b + b == a;
    CanonicalSame(a, AddPoints(SubtractPoints(a, b), b));
  }

  /** The logarithm two answers to one first message reveal. */
  function Extracted(z: int, w: int, e: int, f: int): (r: int)
    requires !Same(e, f)
    ensures Canonical(r)
  {
    DifferenceNonzero(e, f);
    ModScalar((z - w) * InvertScalar(ModScalar(e - f)).value)
  }

  lemma DifferenceNonzero(e: int, f: int)
    requires !Same(e, f)
    ensures !Same(e - f, 0) && InvertScalar(ModScalar(e - f)).Ok?
  {
    if Same(e - f, 0) {
      SameIff(e - f, 0);
      SameIff(e, f);
    }
    NonzeroIsInvertible(e - f);
  }

  lemma ExtractedIs(z: int, w: int, e: int, f: int)
    requires !Same(e, f)
    ensures Same(Extracted(z, w, e, f) * (e - f), z - w)
  {
    hide ModScalar, InvertScalar;
    DifferenceNonzero(e, f);
    var d := e - f;
    var inverse := InvertScalar(ModScalar(d)).value;
    ModIsSame(d);
    ModIsSame((z - w) * inverse);
    MulSame(Extracted(z, w, e, f), (z - w) * inverse, d, d);
    MulSame(d, ModScalar(d), inverse, inverse);
    OneIsCanonical();
    InverseSame(d, inverse);
    MulSame(d * inverse, 1, z - w, z - w);
    assert (z - w) * inverse * d == d * inverse * (z - w);
  }

  lemma InverseSame(d: int, inverse: int)
    requires ModScalar(ModScalar(d) * inverse) == 1
    ensures Same(d * inverse, 1)
  {
    hide ModScalar;
    ModIsSame(d);
    MulSame(ModScalar(d), d, inverse, inverse);
    OneIsCanonical();
  }

  /** Two answers to one first message satisfy the extracted logarithm. */
  lemma TwoAnswers(base: int, point: int, first: int, z: int, e: int, w: int, f: int)
    requires Canonical(point) && !Same(e, f)
    requires ScalePoint(base, z) == AddPoints(first, ScalePoint(point, e))
    requires ScalePoint(base, w) == AddPoints(first, ScalePoint(point, f))
    ensures ScalePoint(base, Extracted(z, w, e, f)) == point
  {
    hide ModScalar, Extracted;
    AddSame(first, first, ScalePoint(point, e), point * e);
    AddSame(first, first, ScalePoint(point, f), point * f);
    assert Same(base * z, first + point * e) && Same(base * w, first + point * f);
    AddSame(base * z, first + point * e, base * w, first + point * f);
    assert base * z - base * w == base * (z - w);
    assert first + point * e - (first + point * f) == point * (e - f);
    var x := Extracted(z, w, e, f);
    ExtractedIs(z, w, e, f);
    MulSame(x * (e - f), z - w, base, base);
    assert x * (e - f) * base == (e - f) * (base * x) && (z - w) * base == base * (z - w)
      && point * (e - f) == (e - f) * point;
    SameTrans((e - f) * (base * x), base * (z - w), (e - f) * point);
    DifferenceNonzero(e, f);
    CancelFactor(e - f, base * x, point);
    CanonicalSame(ScalePoint(base, x), point);
  }

  // ---- Schnorr ----

  datatype SchnorrStatement = SchnorrStatement(base: Point, publicPoint: Point)

  datatype SchnorrProof = SchnorrProof(commitment: Point, response: int)

  type SchnorrHash = (SchnorrStatement, Point) -> int

  predicate SchnorrStatementOk(st: SchnorrStatement) {
    IsPoint(st.base) && st.base != ZERO_POINT && IsPoint(st.publicPoint)
  }

  predicate OpensSchnorr(st: SchnorrStatement, secret: int) {
    Canonical(secret) && Scale(st.base, secret) == st.publicPoint
  }

  function SchnorrResponse(secret: int, nonce: int, challenge: int): int {
    ModScalar(nonce + challenge * secret)
  }

  /** The opening equation at a given challenge. */
  predicate InspectSchnorr(st: SchnorrStatement, proof: SchnorrProof, challenge: int) {
    && SchnorrStatementOk(st) && Canonical(challenge) && IsPoint(proof.commitment) && Canonical(proof.response)
    && Scale(st.base, proof.response) == Add(proof.commitment, Scale(st.publicPoint, challenge))
  }

  function ProveSchnorr(st: SchnorrStatement, secret: int, nonce: int, hash: SchnorrHash): Result<SchnorrProof> {
    if !SchnorrStatementOk(st) || !OpensSchnorr(st, secret) then Err("witness")
    else
      var commitment := Scale(st.base, nonce);
      Ok(SchnorrProof(commitment, SchnorrResponse(secret, nonce, ModScalar(hash(st, commitment)))))
  }

  predicate VerifySchnorr(st: SchnorrStatement, proof: SchnorrProof, hash: SchnorrHash) {
    InspectSchnorr(st, proof, ModScalar(hash(st, proof.commitment)))
  }

  function SimulateSchnorr(st: SchnorrStatement, challenge: int, response: int): SchnorrProof {
    SchnorrProof(Subtract(Scale(st.base, response), Scale(st.publicPoint, challenge)), response)
  }

  lemma SchnorrAnswers(st: SchnorrStatement, secret: int, nonce: int, challenge: int)
    requires SchnorrStatementOk(st) && OpensSchnorr(st, secret) && Canonical(challenge)
    ensures InspectSchnorr(st, SchnorrProof(Scale(st.base, nonce), SchnorrResponse(secret, nonce, challenge)),
                           challenge)
  {
    ResponseAnswers(st.base.g, secret, nonce, challenge);
    ResponseAnswers(st.base.h, secret, nonce, challenge);
  }

  /** Every honest proof verifies, under any hash. */
  lemma SchnorrComplete(st: SchnorrStatement, secret: int, nonce: int, hash: SchnorrHash)
    requires ProveSchnorr(st, secret, nonce, hash).Ok?
    ensures VerifySchnorr(st, ProveSchnorr(st, secret, nonce, hash).value, hash)
  {
    SchnorrAnswers(st, secret, nonce, ModScalar(hash(st, Scale(st.base, nonce))));
  }

  /** A simulated opening passes at its chosen challenge, also for a false statement. */
  lemma SchnorrSimulates(st: SchnorrStatement, challenge: int, response: int)
    requires SchnorrStatementOk(st) && Canonical(challenge) && Canonical(response)
    ensures InspectSchnorr(st, SimulateSchnorr(st, challenge, response), challenge)
  {
    SimulatedAnswers(st.base.g, st.publicPoint.g, challenge, response);
    SimulatedAnswers(st.base.h, st.publicPoint.h, challenge, response);
  }

  /** Two accepted openings with one first message and different challenges reveal the secret. */
  lemma SchnorrExtracts(st: SchnorrStatement, a: SchnorrProof, e: int, b: SchnorrProof, f: int)
    requires InspectSchnorr(st, a, e) && InspectSchnorr(st, b, f) && a.commitment == b.commitment && e != f
    ensures !Same(e, f) && OpensSchnorr(st, Extracted(a.response, b.response, e, f))
  {
    CanonicalDiffer(e, f);
    TwoAnswers(st.base.g, st.publicPoint.g, a.commitment.g, a.response, e, b.response, f);
    TwoAnswers(st.base.h, st.publicPoint.h, a.commitment.h, a.response, e, b.response, f);
  }

  lemma CanonicalDiffer(e: int, f: int)
    requires Canonical(e) && Canonical(f) && e != f
    ensures !Same(e, f)
  {
  }

  /** A first message that answers one challenge only: a second answer would reveal the secret. */
  class PreparedSchnorr {
    const st: SchnorrStatement
    const secret: int
    const nonce: int
    var answered: bool

    constructor (st: SchnorrStatement, secret: int, nonce: int)
      requires SchnorrStatementOk(st) && OpensSchnorr(st, secret)
      ensures this.st == st && this.secret == secret && this.nonce == nonce && !answered
    {
      this.st, this.secret, this.nonce, answered := st, secret, nonce, false;
    }

    method Respond(challenge: int) returns (r: Result<SchnorrProof>)
      requires SchnorrStatementOk(st) && OpensSchnorr(st, secret)
      modifies this`answered
      ensures r.Ok? <==> Canonical(challenge) && !old(answered)
      ensures r.Ok? ==> r.value.commitment == Scale(st.base, nonce) && InspectSchnorr(st, r.value, challenge)
      ensures answered == (old(answered) || Canonical(challenge))
    {
      if !Canonical(challenge) {
        return Err("range");
      }
      if answered {
        return Err("answered");
      }
      answered := true;
      SchnorrAnswers(st, secret, nonce, challenge);
      return Ok(SchnorrProof(Scale(st.base, nonce), SchnorrResponse(secret, nonce, challenge)));
    }
  }

  // ---- equality of two logarithms ----

  datatype DleqStatement = DleqStatement(base1: Point, point1: Point, base2: Point, point2: Point)

  datatype DleqProof = DleqProof(first: Point, second: Point, response: int)

  type DleqHash = (DleqStatement, Point, Point) -> int

  predicate OpensDleq(st: DleqStatement, secret: int) {
    Canonical(secret) && Scale(st.base1, secret) == st.point1 && Scale(st.base2, secret) == st.point2
  }

  predicate DleqStatementOk(st: DleqStatement) {
    && IsPoint(st.base1) && st.base1 != ZERO_POINT && IsPoint(st.point1)
    && IsPoint(st.base2) && st.base2 != ZERO_POINT && IsPoint(st.point2)
  }

  function ProveDleq(st: DleqStatement, secret: int, nonce: int, hash: DleqHash): Result<DleqProof> {
    if !DleqStatementOk(st) || !OpensDleq(st, secret) then Err("witness")
    else
      var first, second := Scale(st.base1, nonce), Scale(st.base2, nonce);
      Ok(DleqProof(first, second, SchnorrResponse(secret, nonce, ModScalar(hash(st, first, second)))))
  }

  predicate VerifyDleq(st: DleqStatement, proof: DleqProof, hash: DleqHash) {
    var challenge := ModScalar(hash(st, proof.first, proof.second));
    && DleqStatementOk(st) && IsPoint(proof.first) && IsPoint(proof.second) && Canonical(proof.response)
    && Scale(st.base1, proof.response) == Add(proof.first, Scale(st.point1, challenge))
    && Scale(st.base2, proof.response) == Add(proof.second, Scale(st.point2, challenge))
  }

  lemma DleqComplete(st: DleqStatement, secret: int, nonce: int, hash: DleqHash)
    requires ProveDleq(st, secret, nonce, hash).Ok?
    ensures VerifyDleq(st, ProveDleq(st, secret, nonce, hash).value, hash)
  {
    var challenge := ModScalar(hash(st, Scale(st.base1, nonce), Scale(st.base2, nonce)));
    ResponseAnswers(st.base1.g, secret, nonce, challenge);
    ResponseAnswers(st.base1.h, secret, nonce, challenge);
    ResponseAnswers(st.base2.g, secret, nonce, challenge);
    ResponseAnswers(st.base2.h, secret, nonce, challenge);
  }

  /** Equal first messages under two hashes with different values reveal the common logarithm. */
  lemma DleqExtracts(st: DleqStatement, a: DleqProof, hash: DleqHash, b: DleqProof, other: DleqHash)
    requires VerifyDleq(st, a, hash) && VerifyDleq(st, b, other) && a.first == b.first && a.second == b.second
    requires ModScalar(hash(st, a.first, a.second)) != ModScalar(other(st, b.first, b.second))
    ensures var e, f := ModScalar(hash(st, a.first, a.second)), ModScalar(other(st, b.first, b.second));
            !Same(e, f) && OpensDleq(st, Extracted(a.response, b.response, e, f))
  {
    var e, f := ModScalar(hash(st, a.first, a.second)), ModScalar(other(st, b.first, b.second));
    CanonicalDiffer(e, f);
    TwoAnswers(st.base1.g, st.point1.g, a.first.g, a.response, e, b.response, f);
    TwoAnswers(st.base1.h, st.point1.h, a.first.h, a.response, e, b.response, f);
    TwoAnswers(st.base2.g, st.point2.g, a.second.g, a.response, e, b.response, f);
    TwoAnswers(st.base2.h, st.point2.h, a.second.h, a.response, e, b.response, f);
  }
}
