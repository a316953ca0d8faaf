/**
 * The RatingVault contract: a registry of rating campaigns that accepts one encrypted
 * score vector per participant and keeps per-dimension encrypted totals.
 *
 * The contract's own source is not part of this model; its behaviour is the one its
 * Hardhat tests assert (fhevm-hardhat-template/test/RatingVault.ts) and the one its
 * client relies on. `msg.sender` and `block.timestamp` are parameters. Ciphertexts are
 * symbolic: an encrypted value is the term of FHE operations that produced it, and
 * `Decrypt` gives the plaintext such a term stands for.
 */
module RatingVault {
  import opened Common

  type Address = string
  /** An `externalEuint32` handle as submitted by the client. */
  type Handle = string
  type Proof = string

  const MinDimensions: nat := 2
  const MaxDimensions: nat := 10
  /** `euint32` arithmetic wraps modulo 2^32. */
  const Modulus: nat := 0x1_0000_0000

  /** An encrypted `euint32`: encrypted zero, an input accepted with its proof, or a homomorphic sum. */
  datatype Cipher = EncryptedZero | Input(handle: Handle) | Add(left: Cipher, right: Cipher)

  /** The snapshot `getRating` returns. */
  datatype Campaign = Campaign(
    id: nat,
    creator: Address,
    name: string,
    description: string,
    dimensions: seq<string>,
    minScore: int,
    maxScore: int,
    deadline: nat,
    active: bool,
    participantCount: nat,
    createdAt: nat)

  datatype Event =
    | RatingCreated(ratingId: nat, creator: Address, name: string, dimensionCount: nat)
    | RatingClosed(ratingId: nat)

  datatype VaultError =
    | InvalidDimensionCount | InvalidScoreRange | InvalidDeadline
    | NotFound | NotOpen | Expired | AlreadyRated | DimensionMismatch | InvalidProof
    | NotCreator

  /**
   * The revert strings the tests assert (`revertedWith`): known for the three creation
   * rules, a duplicate submission and a close by someone else; the others are not known.
   */
  function RevertReason(e: VaultError): (m: Option<string>)
    ensures m.Some? <==> e.InvalidDimensionCount? || e.InvalidScoreRange? || e.InvalidDeadline?
                         || e.AlreadyRated? || e.NotCreator?
    ensures m.Some? ==> m.value != ""
  {
    match e
    case InvalidDimensionCount => Some("2-10 dimensions required")
    case InvalidScoreRange => Some("minScore < maxScore")
    case InvalidDeadline => Some("Invalid deadline")
    case AlreadyRated => Some("Already rated")
    case NotCreator => Some("Not creator")
    case _ => None
  }

  /** A known revert string names its rule: the tests can tell the failures apart. */
  lemma RevertReasonInjective(a: VaultError, b: VaultError)
    requires RevertReason(a).Some? && RevertReason(a) == RevertReason(b)
    ensures a == b
  {
  }

  /** The input verifier's verdict on handles and a proof for (contract, user). */
  type InputVerifier = (Address, Address, seq<Handle>, Proof) -> bool

  /** Plaintext of each accepted input handle (what its proof attests). */
  type Valuation = Handle -> nat

  // ---------------------------------------------------------------------------
  // Creation rules

  predicate ValidDimensionCount(n: nat) {
    MinDimensions <= n <= MaxDimensions
  }

  /** A deadline of 0 means "no deadline"; any other must lie after `now`. */
  predicate ValidDeadline(deadline: nat, now: nat) {
    deadline == 0 || deadline > now
  }

  /** A campaign with a deadline no longer takes submissions once `now` is past it. */
  predicate IsExpired(c: Campaign, now: nat) {
    c.deadline != 0 && now > c.deadline
  }

  ghost predicate WellFormed(c: Campaign) {
    ValidDimensionCount(|c.dimensions|) && c.minScore < c.maxScore
  }

  // ---------------------------------------------------------------------------
  // Encrypted accumulation

  /** The plaintext an encrypted term stands for. */
  function Decrypt(c: Cipher, v: Valuation): (x: nat)
    ensures x < Modulus
  {
    match c
    case EncryptedZero => 0
    case Input(h) => v(h) % Modulus
    case Add(l, r) => (Decrypt(l, v) + Decrypt(r, v)) % Modulus
  }

  function Zeros(n: nat): (acc: seq<Cipher>)
    ensures |acc| == n && forall k :: 0 <= k < n ==> acc[k] == EncryptedZero
  {
    seq(n, _ => EncryptedZero)
  }

  /** `FHE.add` of each submitted score onto the matching accumulator. */
  function AddRow(acc: seq<Cipher>, row: seq<Handle>): (r: seq<Cipher>)
    requires |row| == |acc|
    ensures |r| == |acc| && forall k :: 0 <= k < |acc| ==> r[k] == Add(acc[k], Input(row[k]))
  {
    seq(|acc|, k requires 0 <= k < |acc| => Add(acc[k], Input(row[k])))
  }

  ghost predicate RowsOfWidth(rows: seq<seq<Handle>>, n: nat) {
    forall j :: 0 <= j < |rows| ==> |rows[j]| == n
  }

  /** The accumulators after the given submissions, in order, starting from encrypted zeros. */
  ghost function Accumulate(n: nat, rows: seq<seq<Handle>>): (acc: seq<Cipher>)
    requires RowsOfWidth(rows, n)
    ensures |acc| == n
  {
    if rows == [] then Zeros(n)
    else AddRow(Accumulate(n, rows[..|rows| - 1]), rows[|rows| - 1])
  }

  /** The plain sum of column `k` over the rows (rows too short for `k` contribute nothing). */
  function ColumnSum(rows: seq<seq<Handle>>, k: nat, v: Valuation): nat {
    if rows == [] then 0
    else (if k < |rows[0]| then v(rows[0][k]) else 0) + ColumnSum(rows[1..], k, v)
  }

  lemma {:induction false} ColumnSumConcat(a: seq<seq<Handle>>, b: seq<seq<Handle>>, k: nat, v: Valuation)
    ensures ColumnSum(a + b, k, v) == ColumnSum(a, k, v) + ColumnSum(b, k, v)
  {
    if a != [] {
      assert (a + b)[1..] == a[1..] + b;
      ColumnSumConcat(a[1..], b, k, v);
    } else {
      assert a + b == b;
    }
  }

  lemma ModAdd(a: nat, b: nat)
    ensures (a % Modulus + b % Modulus) % Modulus == (a + b) % Modulus
  {
  }

  /** Decrypting the k-th accumulator gives the sum of the k-th scores, modulo 2^32. */
  lemma {:induction false} AccumulateDecrypts(n: nat, rows: seq<seq<Handle>>, k: nat, v: Valuation)
    requires RowsOfWidth(rows, n) && k < n
    ensures Decrypt(Accumulate(n, rows)[k], v) == ColumnSum(rows, k, v) % Modulus
  {
    if rows != [] {
      var init, last := rows[..|rows| - 1], rows[|rows| - 1];
      assert rows == init + [last];
      AccumulateDecrypts(n, init, k, v);
      ColumnSumConcat(init, [last], k, v);
      assert ColumnSum([last], k, v) == v(last[k]);
      ModAdd(ColumnSum(init, k, v), v(last[k]));
    }
  }

  /** Taking one row out of `b` takes its entry out of the multiset. */
  lemma MultisetWithout(b: seq<seq<Handle>>, i: nat)
    requires i < |b|
    ensures multiset(b[..i] + b[i + 1..]) == multiset(b) - multiset{b[i]}
  {
    assert b == b[..i] + [b[i]] + b[i + 1..];
  }

  /** Taking one row out of `b` takes its entry out of the column sum. */
  lemma {:induction false} ColumnSumWithout(b: seq<seq<Handle>>, i: nat, k: nat, v: Valuation)
    requires i < |b|
    ensures ColumnSum(b, k, v) == ColumnSum([b[i]], k, v) + ColumnSum(b[..i] + b[i + 1..], k, v)
  {
    assert b == (b[..i] + [b[i]]) + b[i + 1..];
    ColumnSumConcat(b[..i] + [b[i]], b[i + 1..], k, v);
    ColumnSumConcat(b[..i], [b[i]], k, v);
    ColumnSumConcat(b[..i], b[i + 1..], k, v);
  }

  /** Column sums do not depend on the order of the rows. */
  lemma {:induction false} ColumnSumPermutation(a: seq<seq<Handle>>, b: seq<seq<Handle>>, k: nat, v: Valuation)
    requires multiset(a) == multiset(b)
    ensures ColumnSum(a, k, v) == ColumnSum(b, k, v)
  {
    if a == [] {
      assert |b| == |multiset(b)| == 0;
    } else {
      var x := a[0];
      assert x in multiset(b);
      var i :| 0 <= i < |b| && b[i] == x;
      assert a == [x] + a[1..];
      assert multiset(a[1..]) == multiset(a) - multiset{x};
      MultisetWithout(b, i);
      ColumnSumPermutation(a[1..], b[..i] + b[i + 1..], k, v);
      ColumnSumWithout(b, i, k, v);
      ColumnSumConcat([x], a[1..], k, v);
    }
  }

  /** The decrypted totals are the same whatever order the same submissions arrived in. */
  lemma AggregateOrderIndependent(n: nat, a: seq<seq<Handle>>, b: seq<seq<Handle>>, v: Valuation)
    requires RowsOfWidth(a, n) && RowsOfWidth(b, n) && multiset(a) == multiset(b)
    ensures forall k :: 0 <= k < n ==> Decrypt(Accumulate(n, a)[k], v) == Decrypt(Accumulate(n, b)[k], v)
  {
    forall k | 0 <= k < n
      ensures Decrypt(Accumulate(n, a)[k], v) == Decrypt(Accumulate(n, b)[k], v)
    {
      AccumulateDecrypts(n, a, k, v);
      AccumulateDecrypts(n, b, k, v);
      ColumnSumPermutation(a, b, k, v);
    }
  }

  // ---------------------------------------------------------------------------
  // Mapping helpers

  /** Strictly increasing: in particular no id appears twice. */
  ghost predicate Increasing(s: seq<nat>) {
    forall x, y :: 0 <= x < y < |s| ==> s[x] < s[y]
  }

  ghost predicate NoDuplicates<T>(s: seq<T>) {
    forall x, y :: 0 <= x < y < |s| ==> s[x] != s[y]
  }

  /** Campaign `i` exists and was created by `a`. */
  predicate CreatorOf(cs: seq<Campaign>, i: int, a: Address) {
    0 <= i < |cs| && cs[i].creator == a
  }

  /** `p` has stored scores for campaign `i`. */
  predicate Submitted(m: map<(nat, Address), seq<Cipher>>, i: nat, p: Address) {
    (i, p) in m
  }

  /** A read of a `mapping(address => uint256[])`: unwritten entries are empty arrays. */
  function Lookup(m: map<Address, seq<nat>>, k: Address): seq<nat> {
    if k in m then m[k] else []
  }

  /** `m[k].push(x)`. */
  function Pushed(m: map<Address, seq<nat>>, k: Address, x: nat): (r: map<Address, seq<nat>>)
    ensures Lookup(r, k) == Lookup(m, k) + [x]
  {
    m[k := Lookup(m, k) + [x]]
  }

  lemma LookupPushed(m: map<Address, seq<nat>>, k: Address, x: nat, j: Address)
    ensures Lookup(Pushed(m, k, x), j) == if j == k then Lookup(m, k) + [x] else Lookup(m, j)
  {
  }

  // ---------------------------------------------------------------------------
  // The contract's storage as a value, and the invariant every transaction keeps

  /**
   * Everything the contract stores, plus two ghost histories: per campaign, the accepted
   * submissions (`accepted`) and who made them (`raters`), in order.
   */
  datatype Snapshot = Snapshot(
    ratingCount: nat,
    campaigns: seq<Campaign>,
    createdBy: map<Address, seq<nat>>,
    ratedBy: map<Address, seq<nat>>,
    aggregates: seq<seq<Cipher>>,
    submissions: map<(nat, Address), seq<Cipher>>,
    accepted: seq<seq<seq<Handle>>>,
    raters: seq<seq<Address>>)

  ghost predicate CampaignsOk(s: Snapshot) {
    && s.ratingCount == |s.campaigns| == |s.aggregates| == |s.accepted| == |s.raters|
    && forall i :: 0 <= i < |s.campaigns| ==> s.campaigns[i].id == i && WellFormed(s.campaigns[i])
  }

  /** Each creator's list holds exactly the ids of the campaigns they created, in creation order. */
  ghost predicate CreatedOk(s: Snapshot) {
    && (forall a, i: int :: i in Lookup(s.createdBy, a) <==> CreatorOf(s.campaigns, i, a))
    && (forall a :: Increasing(Lookup(s.createdBy, a)))
  }

  /** Each accumulator is the encrypted sum of the accepted rows; one row per distinct rater. */
  ghost predicate AggregatesOk(s: Snapshot)
    requires CampaignsOk(s)
  {
    forall i :: 0 <= i < |s.campaigns| ==>
      && RowsOfWidth(s.accepted[i], |s.campaigns[i].dimensions|)
      && s.aggregates[i] == Accumulate(|s.campaigns[i].dimensions|, s.accepted[i])
      && s.campaigns[i].participantCount == |s.accepted[i]| == |s.raters[i]|
      && NoDuplicates(s.raters[i])
  }

  /** A participant's scores are stored exactly for the campaigns they rated, one per dimension. */
  ghost predicate SubmissionsOk(s: Snapshot)
    requires CampaignsOk(s)
  {
    && (forall i: nat, p :: Submitted(s.submissions, i, p) <==> i < |s.campaigns| && p in s.raters[i])
    && (forall i: nat, p :: Submitted(s.submissions, i, p) ==>
          i < |s.campaigns| && |s.submissions[(i, p)]| == |s.campaigns[i].dimensions|)
  }

  /** Each participant's list holds each campaign they rated, exactly once. */
  ghost predicate RatedByOk(s: Snapshot) {
    && (forall a, i: nat :: i in Lookup(s.ratedBy, a) <==> Submitted(s.submissions, i, a))
    && (forall a :: NoDuplicates(Lookup(s.ratedBy, a)))
  }

  ghost predicate Inv(s: Snapshot) {
    CampaignsOk(s) && CreatedOk(s) && AggregatesOk(s) && SubmissionsOk(s) && RatedByOk(s)
  }

  const Empty: Snapshot := Snapshot(0, [], map[], map[], [], map[], [], [])

  lemma InvEmpty()
    ensures Inv(Empty)
  {
  }

  /** The storage after `createRating` appends campaign `c`. */
  ghost function AfterCreate(s: Snapshot, c: Campaign): Snapshot {
    s.(ratingCount := s.ratingCount + 1,
       campaigns := s.campaigns + [c],
       createdBy := Pushed(s.createdBy, c.creator, c.id),
       aggregates := s.aggregates + [Zeros(|c.dimensions|)],
       accepted := s.accepted + [[]],
       raters := s.raters + [[]])
  }

  lemma InvAfterCreate(s: Snapshot, c: Campaign)
    requires Inv(s) && c.id == s.ratingCount && WellFormed(c) && c.participantCount == 0
    ensures Inv(AfterCreate(s, c))
  {
    var t := AfterCreate(s, c);
    CreatedAfterCreate(s, c);
    assert AggregatesOk(t) by {
      forall i | 0 <= i < |t.campaigns|
        ensures RowsOfWidth(t.accepted[i], |t.campaigns[i].dimensions|)
        ensures t.aggregates[i] == Accumulate(|t.campaigns[i].dimensions|, t.accepted[i])
      {
        if i < |s.campaigns| {
          assert t.accepted[i] == s.accepted[i] && t.campaigns[i] == s.campaigns[i];
        }
      }
    }
    assert SubmissionsOk(t) by {
      forall i: nat, p ensures Submitted(t.submissions, i, p) <==> i < |t.campaigns| && p in t.raters[i] {
        if i < |s.campaigns| {
          assert t.raters[i] == s.raters[i];
        }
      }
    }
  }

  lemma CreatedAfterCreate(s: Snapshot, c: Campaign)
    requires CampaignsOk(s) && CreatedOk(s) && c.id == s.ratingCount
    ensures CreatedOk(AfterCreate(s, c))
  {
    var t := AfterCreate(s, c);
    forall a, i: int ensures i in Lookup(t.createdBy, a) <==> CreatorOf(t.campaigns, i, a) {
      LookupPushed(s.createdBy, c.creator, c.id, a);
      assert i in Lookup(s.createdBy, a) <==> CreatorOf(s.campaigns, i, a);
      if 0 <= i < |s.campaigns| {
        assert t.campaigns[i] == s.campaigns[i];
      } else if i == |s.campaigns| {
        assert t.campaigns[i] == c;
      }
    }
    forall a ensures Increasing(Lookup(t.createdBy, a)) {
      LookupPushed(s.createdBy, c.creator, c.id, a);
      if a == c.creator {
        var before := Lookup(s.createdBy, a);
        var after := Lookup(t.createdBy, a);
        assert Increasing(before);
        forall x, y | 0 <= x < y < |after| ensures after[x] < after[y] {
          if y == |before| {
            assert after[x] == before[x] && before[x] in before;
          } else {
            assert after[x] == before[x] && after[y] == before[y];
          }
        }
      }
    }
  }

  /** The storage after `submitRating` by `p` of `handles` to campaign `id`. */
  ghost function AfterSubmit(s: Snapshot, id: nat, p: Address, handles: seq<Handle>): Snapshot
    requires CampaignsOk(s) && id < s.ratingCount && |handles| == |s.aggregates[id]|
  {
    var c := s.campaigns[id];
    s.(campaigns := s.campaigns[id := c.(participantCount := c.participantCount + 1)],
       ratedBy := Pushed(s.ratedBy, p, id),
       aggregates := s.aggregates[id := AddRow(s.aggregates[id], handles)],
       submissions := s.submissions[(id, p) := Inputs(handles)],
       accepted := s.accepted[id := s.accepted[id] + [handles]],
       raters := s.raters[id := s.raters[id] + [p]])
  }

  /** The stored form of submitted handles: each one accepted as an input ciphertext. */
  function Inputs(handles: seq<Handle>): (r: seq<Cipher>)
    ensures |r| == |handles| && forall k :: 0 <= k < |handles| ==> r[k] == Input(handles[k])
  {
    seq(|handles|, k requires 0 <= k < |handles| => Input(handles[k]))
  }

  lemma AccumulateAppend(n: nat, rows: seq<seq<Handle>>, row: seq<Handle>)
    requires RowsOfWidth(rows, n) && |row| == n
    ensures RowsOfWidth(rows + [row], n)
    ensures Accumulate(n, rows + [row]) == AddRow(Accumulate(n, rows), row)
  {
    assert (rows + [row])[..|rows|] == rows;
  }

  /** Precondition of the accepted submission: an existing campaign the sender has not rated. */
  ghost predicate CanSubmit(s: Snapshot, id: nat, p: Address, handles: seq<Handle>) {
    Inv(s) && id < s.ratingCount && !Submitted(s.submissions, id, p) && |handles| == |s.campaigns[id].dimensions|
  }

  lemma InvAfterSubmit(s: Snapshot, id: nat, p: Address, handles: seq<Handle>)
    requires CanSubmit(s, id, p, handles)
    ensures |handles| == |s.aggregates[id]|
    ensures Inv(AfterSubmit(s, id, p, handles))
  {
    AggregatesAfterSubmit(s, id, p, handles);
    CreatedAfterSubmit(s, id, p, handles);
    SubmissionsAfterSubmit(s, id, p, handles);
    RatedByAfterSubmit(s, id, p, handles);
  }

  lemma AggregatesAfterSubmit(s: Snapshot, id: nat, p: Address, handles: seq<Handle>)
    requires CanSubmit(s, id, p, handles)
    ensures |handles| == |s.aggregates[id]|
    ensures CampaignsOk(AfterSubmit(s, id, p, handles)) && AggregatesOk(AfterSubmit(s, id, p, handles))
  {
    var t := AfterSubmit(s, id, p, handles);
    AccumulateAppend(|s.campaigns[id].dimensions|, s.accepted[id], handles);
    assert p !in s.raters[id];
    forall i | 0 <= i < |t.campaigns|
      ensures RowsOfWidth(t.accepted[i], |t.campaigns[i].dimensions|)
      ensures t.aggregates[i] == Accumulate(|t.campaigns[i].dimensions|, t.accepted[i])
      ensures t.campaigns[i].participantCount == |t.accepted[i]| == |t.raters[i]|
      ensures NoDuplicates(t.raters[i])
    {
      if i != id {
        assert t.accepted[i] == s.accepted[i] && t.campaigns[i] == s.campaigns[i] && t.raters[i] == s.raters[i];
      }
    }
  }

  lemma CreatedAfterSubmit(s: Snapshot, id: nat, p: Address, handles: seq<Handle>)
    requires CanSubmit(s, id, p, handles) && |handles| == |s.aggregates[id]|
    ensures CreatedOk(AfterSubmit(s, id, p, handles))
  {
    var t := AfterSubmit(s, id, p, handles);
    assert forall i :: 0 <= i < |t.campaigns| ==> t.campaigns[i].creator == s.campaigns[i].creator;
  }

  lemma SubmissionsAfterSubmit(s: Snapshot, id: nat, p: Address, handles: seq<Handle>)
    requires CanSubmit(s, id, p, handles) && |handles| == |s.aggregates[id]|
    ensures CampaignsOk(AfterSubmit(s, id, p, handles)) ==> SubmissionsOk(AfterSubmit(s, id, p, handles))
  {
    var t := AfterSubmit(s, id, p, handles);
    if CampaignsOk(t) {
      forall i: nat, q ensures Submitted(t.submissions, i, q) <==> i < |t.campaigns| && q in t.raters[i] {
        if i < |s.campaigns| && i != id {
          assert t.raters[i] == s.raters[i];
        }
      }
      forall i: nat, q | Submitted(t.submissions, i, q)
        ensures i < |t.campaigns| && |t.submissions[(i, q)]| == |t.campaigns[i].dimensions|
      {
        if (i, q) != (id, p) {
          assert Submitted(s.submissions, i, q);
        }
      }
    }
  }

  lemma RatedByAfterSubmit(s: Snapshot, id: nat, p: Address, handles: seq<Handle>)
    requires CanSubmit(s, id, p, handles) && |handles| == |s.aggregates[id]|
    ensures RatedByOk(AfterSubmit(s, id, p, handles))
  {
    var t := AfterSubmit(s, id, p, handles);
    forall a, i: nat ensures i in Lookup(t.ratedBy, a) <==> Submitted(t.submissions, i, a) {
      LookupPushed(s.ratedBy, p, id, a);
      assert i in Lookup(s.ratedBy, a) <==> Submitted(s.submissions, i, a);
    }
    forall a ensures NoDuplicates(Lookup(t.ratedBy, a)) {
      LookupPushed(s.ratedBy, p, id, a);
      if a == p {
        var before := Lookup(s.ratedBy, p);
        var after := Lookup(t.ratedBy, a);
        assert id !in before;
        forall x, y | 0 <= x < y < |after| ensures after[x] != after[y] {
          if y == |before| {
            assert after[x] == before[x] && before[x] in before;
          }
        }
      }
    }
  }

  /** The storage after `closeRating(id)`. */
  ghost function AfterClose(s: Snapshot, id: nat): Snapshot
    requires id < |s.campaigns|
  {
    s.(campaigns := s.campaigns[id := s.campaigns[id].(active := false)])
  }

  lemma InvAfterClose(s: Snapshot, id: nat)
    requires Inv(s) && id < s.ratingCount
    ensures Inv(AfterClose(s, id))
  {
    var t := AfterClose(s, id);
    assert forall i :: 0 <= i < |t.campaigns| ==>
      && t.campaigns[i].creator == s.campaigns[i].creator
      && t.campaigns[i].dimensions == s.campaigns[i].dimensions
      && t.campaigns[i].participantCount == s.campaigns[i].participantCount;
    forall a, i: int ensures i in Lookup(t.createdBy, a) <==> CreatorOf(t.campaigns, i, a) {
      assert i in Lookup(s.createdBy, a) <==> CreatorOf(s.campaigns, i, a);
    }
  }

  // ---------------------------------------------------------------------------
  // The contract

  class Vault {
    /** The contract's own address, to which input proofs are bound. */
    const self: Address
    var ratingCount: nat
    var campaigns: seq<Campaign>
    var createdBy: map<Address, seq<nat>>
    var ratedBy: map<Address, seq<nat>>
    /** Per campaign, one encrypted total per dimension. */
    var aggregates: seq<seq<Cipher>>
    /** Each participant's own encrypted scores, present exactly once they have rated. */
    var submissions: map<(nat, Address), seq<Cipher>>
    var events: seq<Event>
    ghost var accepted: seq<seq<seq<Handle>>>
    ghost var raters: seq<seq<Address>>

    ghost function State(): Snapshot
      reads this
    {
      Snapshot(ratingCount, campaigns, createdBy, ratedBy, aggregates, submissions, accepted, raters)
    }

    ghost predicate Valid()
      reads this
    {
      Inv(State())
    }

    /** The `hasRated(id, participant)` flag. */
    predicate HasRated(id: nat, p: Address)
      reads this
    {
      Submitted(submissions, id, p)
    }

    /** A freshly deployed contract: no campaigns. */
    constructor (contractAddress: Address)
      ensures Valid() && self == contractAddress
      ensures ratingCount == 0 && campaigns == [] && events == []
      ensures createdBy == map[] && ratedBy == map[] && submissions == map[]
    {
      self := contractAddress;
      ratingCount, campaigns, aggregates, events := 0, [], [], [];
      createdBy, ratedBy, submissions := map[], map[], map[];
      accepted, raters := [], [];
      InvEmpty();
    }

    /**
     * `createRating`: checks the dimension count, then the score range, then the deadline;
     * on success appends a new open campaign with the next id and emits `RatingCreated`.
     */
    method CreateRating(sender: Address, now: nat, name: string, description: string,
                        dimensions: seq<string>, minScore: int, maxScore: int, deadline: nat)
      returns (r: Result<nat, VaultError>)
      requires Valid()
      modifies this
      ensures Valid()
      ensures !ValidDimensionCount(|dimensions|) ==> r == Err(InvalidDimensionCount)
      ensures ValidDimensionCount(|dimensions|) && minScore >= maxScore ==> r == Err(InvalidScoreRange)
      ensures (ValidDimensionCount(|dimensions|) && minScore < maxScore && !ValidDeadline(deadline, now))
                ==> r == Err(InvalidDeadline)
      ensures r.Ok? <==> ValidDimensionCount(|dimensions|) && minScore < maxScore && ValidDeadline(deadline, now)
      ensures !ValidDimensionCount(|dimensions|) ==> RevertReason(r.error) == Some("2-10 dimensions required")
      ensures ValidDimensionCount(|dimensions|) && minScore >= maxScore ==> RevertReason(r.error) == Some("minScore < maxScore")
      ensures (ValidDimensionCount(|dimensions|) && minScore < maxScore && !ValidDeadline(deadline, now))
                ==> RevertReason(r.error) == Some("Invalid deadline")
      ensures r.Err? ==> unchanged(this)
      ensures r.Ok? ==>
        && r.value == old(ratingCount) && ratingCount == old(ratingCount) + 1
        && campaigns == old(campaigns) + [Campaign(r.value, sender, name, description, dimensions,
                                                   minScore, maxScore, deadline, true, 0, now)]
        && aggregates == old(aggregates) + [Zeros(|dimensions|)]
        && createdBy == Pushed(old(createdBy), sender, r.value)
        && events == old(events) + [RatingCreated(r.value, sender, name, |dimensions|)]
        && ratedBy == old(ratedBy) && submissions == old(submissions)
    {
      if !ValidDimensionCount(|dimensions|) {
        return Err(InvalidDimensionCount);
      }
      if minScore >= maxScore {
        return Err(InvalidScoreRange);
      }
      if !ValidDeadline(deadline, now) {
        return Err(InvalidDeadline);
      }
      var c := Campaign(ratingCount, sender, name, description, dimensions, minScore, maxScore, deadline, true, 0, now);
      AppendCampaign(c);
      r := Ok(c.id);
    }

    /** The effect of a successful `createRating`: store the campaign and emit the event. */
    method AppendCampaign(c: Campaign)
      requires Valid() && c.id == ratingCount && WellFormed(c) && c.participantCount == 0
      modifies this
      ensures Valid()
      ensures ratingCount == old(ratingCount) + 1
      ensures campaigns == old(campaigns) + [c]
      ensures aggregates == old(aggregates) + [Zeros(|c.dimensions|)]
      ensures createdBy == Pushed(old(createdBy), c.creator, c.id)
      ensures events == old(events) + [RatingCreated(c.id, c.creator, c.name, |c.dimensions|)]
      ensures ratedBy == old(ratedBy) && submissions == old(submissions)
    {
      ghost var s := State();
      InvAfterCreate(s, c);
      ratingCount := ratingCount + 1;
      campaigns := campaigns + [c];
      createdBy := Pushed(createdBy, c.creator, c.id);
      aggregates := aggregates + [Zeros(|c.dimensions|)];
      accepted := accepted + [[]];
      raters := raters + [[]];
      events := events + [RatingCreated(c.id, c.creator, c.name, |c.dimensions|)];
      assert State() == AfterCreate(s, c);
    }

    /**
     * `submitRating`: the campaign must exist, be open and not expired, the sender must not
     * have rated it, one handle per dimension must be given and the proof must verify;
     * then each score is added to its accumulator and the sender is recorded.
     */
    method SubmitRating(sender: Address, now: nat, id: nat, handles: seq<Handle>, proof: Proof,
                        verifier: InputVerifier)
      returns (r: Result<(), VaultError>)
      requires Valid()
      modifies this
      ensures Valid()
      ensures id >= old(ratingCount) ==> r == Err(NotFound)
      ensures id < old(ratingCount) ==>
        var c := old(campaigns[id]);
        && (!c.active ==> r == Err(NotOpen))
        && (c.active && IsExpired(c, now) ==> r == Err(Expired))
        && (c.active && !IsExpired(c, now) && old(HasRated(id, sender)) ==>
              r == Err(AlreadyRated) && RevertReason(r.error) == Some("Already rated"))
        && ((c.active && !IsExpired(c, now) && !old(HasRated(id, sender)) && |handles| != |c.dimensions|)
              ==> r == Err(DimensionMismatch))
        && ((c.active && !IsExpired(c, now) && !old(HasRated(id, sender)) && |handles| == |c.dimensions|)
              ==> r == (if verifier(self, sender, handles, proof) then Ok(()) else Err(InvalidProof)))
      ensures r.Err? ==> unchanged(this)
      ensures r.Ok? ==>
        && id < ratingCount == old(ratingCount)
        && |handles| == |old(aggregates[id])|
        && campaigns == old(campaigns)[id := old(campaigns[id]).(participantCount := old(campaigns[id].participantCount) + 1)]
        && aggregates == old(aggregates)[id := AddRow(old(aggregates[id]), handles)]
        && submissions == old(submissions)[(id, sender) := Inputs(handles)]
        && ratedBy == Pushed(old(ratedBy), sender, id)
        && createdBy == old(createdBy) && events == old(events)
    {
      if id >= ratingCount {
        return Err(NotFound);
      }
      var c := campaigns[id];
      if !c.active {
        return Err(NotOpen);
      }
      if IsExpired(c, now) {
        return Err(Expired);
      }
      if HasRated(id, sender) {
        return Err(AlreadyRated);
      }
      if |handles| != |c.dimensions| {
        return Err(DimensionMismatch);
      }
      if !verifier(self, sender, handles, proof) {
        return Err(InvalidProof);
      }
      RecordSubmission(sender, id, handles);
      r := Ok(());
    }

    /** The effect of an accepted submission: add each score to its total and record the rater. */
    method RecordSubmission(sender: Address, id: nat, handles: seq<Handle>)
      requires Valid() && id < ratingCount && !HasRated(id, sender)
      requires |handles| == |campaigns[id].dimensions|
      modifies this
      ensures Valid()
      ensures ratingCount == old(ratingCount) && |handles| == |old(aggregates[id])|
      ensures campaigns == old(campaigns)[id := old(campaigns[id]).(participantCount := old(campaigns[id].participantCount) + 1)]
      ensures aggregates == old(aggregates)[id := AddRow(old(aggregates[id]), handles)]
      ensures submissions == old(submissions)[(id, sender) := Inputs(handles)]
      ensures ratedBy == Pushed(old(ratedBy), sender, id)
      ensures createdBy == old(createdBy) && events == old(events)
    {
      ghost var s := State();
      assert CanSubmit(s, id, sender, handles);
      InvAfterSubmit(s, id, sender, handles);
      ghost var t := AfterSubmit(s, id, sender, handles);
      var c := campaigns[id];
      campaigns, ratedBy := campaigns[id := c.(participantCount := c.participantCount + 1)], Pushed(ratedBy, sender, id);
      aggregates := aggregates[id := AddRow(aggregates[id], handles)];
      submissions := submissions[(id, sender) := Inputs(handles)];
      accepted, raters := accepted[id := accepted[id] + [handles]], raters[id := raters[id] + [sender]];
      assert State() == t;
    }

    /** `closeRating`: only the creator may close; closing an already closed campaign is allowed. */
    method CloseRating(sender: Address, id: nat) returns (r: Result<(), VaultError>)
      requires Valid()
      modifies this
      ensures Valid()
      ensures id >= old(ratingCount) ==> r == Err(NotFound)
      ensures id < old(ratingCount) ==> (r.Ok? <==> sender == old(campaigns[id].creator))
      ensures id < old(ratingCount) && sender != old(campaigns[id].creator) ==>
                r == Err(NotCreator) && RevertReason(r.error) == Some("Not creator")
      ensures r.Err? ==> unchanged(this)
      ensures r.Ok? ==>
        && campaigns == old(campaigns)[id := old(campaigns[id]).(active := false)]
        && events == old(events) + [RatingClosed(id)]
        && ratingCount == old(ratingCount) && aggregates == old(aggregates)
        && createdBy == old(createdBy) && ratedBy == old(ratedBy) && submissions == old(submissions)
    {
      if id >= ratingCount {
        return Err(NotFound);
      }
      if sender != campaigns[id].creator {
        return Err(NotCreator);
      }
      ghost var s := State();
      InvAfterClose(s, id);
      campaigns := campaigns[id := campaigns[id].(active := false)];
      events := events + [RatingClosed(id)];
      assert State() == AfterClose(s, id);
      r := Ok(());
    }

    // -------------------------------------------------------------------------
    // Read-only views

    /** `getRating(id)`: the campaign with that id; reverts for an unknown id. */
    function GetRating(id: nat): (r: Result<Campaign, VaultError>)
      reads this
      requires Valid()
      ensures r.Ok? <==> id < ratingCount
      ensures r.Ok? ==> r.value.id == id && r.value == campaigns[id] && WellFormed(r.value)
      ensures r.Err? ==> r.error == NotFound
    {
      if id < ratingCount then Ok(campaigns[id]) else Err(NotFound)
    }

    /** `getRatings(offset, limit)`: up to `limit` campaigns from `offset`, in ascending id order. */
    function GetRatings(offset: nat, limit: nat): (r: seq<Campaign>)
      reads this
      requires Valid()
      ensures offset >= ratingCount ==> r == []
      ensures offset < ratingCount ==> |r| == (if limit < ratingCount - offset then limit else ratingCount - offset)
      ensures forall i :: 0 <= i < |r| ==> r[i] == campaigns[offset + i] && r[i].id == offset + i
    {
      if offset >= ratingCount then []
      else
        var end := if limit < ratingCount - offset then offset + limit else ratingCount;
        campaigns[offset..end]
    }

    /** `getMyCreatedRatings(a)`: exactly the ids of `a`'s campaigns, in creation order. */
    function GetMyCreatedRatings(a: Address): (r: seq<nat>)
      reads this
      requires Valid()
      ensures forall i: int :: i in r <==> 0 <= i < ratingCount && campaigns[i].creator == a
      ensures Increasing(r)
    {
      Lookup(createdBy, a)
    }

    /** `getMyRatedRatings(a)`: each campaign `a` has rated, once (SubmitRating appends to this list). */
    function GetMyRatedRatings(a: Address): (r: seq<nat>)
      reads this
      requires Valid()
      ensures forall i: nat :: i in r <==> HasRated(i, a)
      ensures forall i :: i in r ==> i < ratingCount
      ensures NoDuplicates(r)
    {
      Lookup(ratedBy, a)
    }

    /** `getAggregatedScores(id)`: the encrypted totals, one per dimension. */
    function GetAggregatedScores(id: nat): (r: Result<seq<Cipher>, VaultError>)
      reads this
      requires Valid()
      ensures r.Ok? <==> id < ratingCount
      ensures r.Ok? ==> |r.value| == |campaigns[id].dimensions| && r.value == aggregates[id]
    {
      if id < ratingCount then Ok(aggregates[id]) else Err(NotFound)
    }

    /** `getMyRating(id)` called by `sender`: their encrypted scores, or nothing if they have not rated. */
    function GetMyRating(sender: Address, id: nat): (r: seq<Cipher>)
      reads this
      requires Valid()
      ensures r != [] <==> HasRated(id, sender)
      ensures HasRated(id, sender) ==> r == submissions[(id, sender)] && |r| == |campaigns[id].dimensions|
    {
      if HasRated(id, sender) then
        assert WellFormed(campaigns[id]);
        submissions[(id, sender)]
      else []
    }
  }

  /** The decrypted totals of a campaign are the sums of the accepted scores, modulo 2^32. */
  lemma AggregatesAreSums(s: Snapshot, id: nat, k: nat, v: Valuation)
    requires Inv(s) && id < s.ratingCount && k < |s.campaigns[id].dimensions|
    ensures Decrypt(s.aggregates[id][k], v) == ColumnSum(s.accepted[id], k, v) % Modulus
  {
    AccumulateDecrypts(|s.campaigns[id].dimensions|, s.accepted[id], k, v);
  }
}
