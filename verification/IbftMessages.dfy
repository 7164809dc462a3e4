/** Messages of the IBFT node, their validity, and the quorum arithmetic.

    Signatures are symbolic: `signed` holds every payload that some validator has
    signed, and a signature verifies exactly when its payload is in that set. As in
    the program, a payload covers the fields of a message and the fields (but not the
    attachments) of the messages attached to it. */
module IbftMessages {

  datatype Kind = PrePrepare | Prepare | Commit | RoundChange | DecisionCertificate | Unknown

  const NO_PREPARED_ROUND: int := 0
  const NO_PREPARED_VALUE: string := ""

  datatype Message = Message(kind: Kind, from: int, instance: int, round: int, value: string,
                             preparedRound: int, preparedValue: string, justification: seq<Message>)
  {
    function Head(): Header {
      Header(kind, from, instance, round, value, preparedRound, preparedValue)
    }

    function Signable(): Payload {
      Payload(Head(), seq(|justification|, i requires 0 <= i < |justification| => justification[i].Head()))
    }

    /** The message claims a prepared round together with a prepared value. */
    predicate ClaimsPrepared() {
      preparedRound != NO_PREPARED_ROUND && preparedValue != NO_PREPARED_VALUE
    }
  }

  datatype Header = Header(kind: Kind, from: int, instance: int, round: int, value: string,
                           preparedRound: int, preparedValue: string)

  datatype Payload = Payload(head: Header, attached: seq<Header>)

  /** A PREPARE or COMMIT vote, which carries no prepared claim and no justification. */
  function Vote(kind: Kind, from: int, instance: int, round: int, value: string): Message {
    Message(kind, from, instance, round, value, NO_PREPARED_ROUND, NO_PREPARED_VALUE, [])
  }

  function MaxFaulty(n: nat): nat {
    if n == 0 then 0 else (n - 1) / 3
  }

  function QuorumSize(n: nat): nat {
    (n + MaxFaulty(n)) / 2 + 1
  }

  function RoundChangeSetSize(n: nat): nat {
    MaxFaulty(n) + 1
  }

  /** Any two quorums overlap in more validators than may be faulty, a quorum outnumbers
      the faulty validators, and the correct validators alone can form one. */
  lemma QuorumArithmetic(n: nat)
    ensures 2 * QuorumSize(n) > n + MaxFaulty(n)
    ensures QuorumSize(n) > MaxFaulty(n)
    ensures RoundChangeSetSize(n) <= QuorumSize(n)
    ensures n > 0 ==> QuorumSize(n) <= n - MaxFaulty(n)
  {
  }

  /** Go's remainder can be negative, in which case the index is shifted back. */
  function Leader(instance: int, round: int, n: nat): int {
    if n == 0 then -1 else (instance + round - 2) % n
  }

  predicate Contains(text: string, part: string) {
    exists i :: 0 <= i <= |text| && part <= text[i..]
  }

  /** The external validity predicate on proposed values. */
  predicate Beta(value: string) {
    value != "" && !Contains(value, "INVALID")
  }

  predicate VerifySignature(m: Message, signed: set<Payload>) {
    m.Signable() in signed
  }

  predicate IsValidMessage(m: Message, n: nat, signed: set<Payload>) {
    && 0 <= m.from < n
    && VerifySignature(m, signed)
    && m.instance > 0
    && m.round >= 1
    && match m.kind
       case PrePrepare | Prepare | Commit => Beta(m.value)
       case RoundChange =>
         && (m.preparedRound != NO_PREPARED_ROUND ==> m.preparedRound < m.round)
         && (m.preparedRound != NO_PREPARED_ROUND <==> m.preparedValue != NO_PREPARED_VALUE)
         && (m.preparedValue != NO_PREPARED_VALUE ==> Beta(m.preparedValue))
       case DecisionCertificate => Beta(m.value)
       case Unknown => false
  }
}
