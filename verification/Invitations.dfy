/**
 Invitation rows and recorded resend requests, updated in place. A resend is split at its await:
 RequestResend decides and stores synchronously, FinishResend runs when the mailer has answered,
 and any other calls may come in between.
 */
module Invitations {
  import opened Common
  import opened ResendLimiter

  type Key = string

  datatype Error = InvalidIdempotencyKey | InvitationNotFound | ResendNotAvailable | NotSendable

  /** Replayed: the answer recorded for the same key. Mailing: the attempt was counted and mail is on its way. */
  datatype Outcome = Replayed(response: nat) | Mailing(attemptedAt: nat) | Rejected(error: Error)

  lemma CreatedRowOk(token: Hash, createdAt: nat, expiryReadAt: nat, hours: nat)
    ensures RowOk(Row(Created, token, 0, createdAt, expiryReadAt + hours * HOUR, hours, None, None, None, 0), [])
  {
  }

  lemma SentRowOk(row: Row, log: seq<Attempt>, sentAt: nat)
    requires RowOk(row, log) && row.createdAt <= sentAt
    ensures RowOk(row.(state := Sent, sentAt := Some(sentAt)), log)
  {
  }

  lemma ClaimedRowOk(row: Row, log: seq<Attempt>, wallet: Address)
    requires RowOk(row, log)
    ensures RowOk(row.(state := Claimed, claimedWallet := wallet), log)
  {
  }

  class Desk {
    var rows: map<nat, Row>
    var responses: map<(nat, Key), nat>
    ghost var logs: map<nat, seq<Attempt>>
    ghost var clock: nat

    /** Every row agrees with the attempts it has granted; nothing lies in the future. */
    ghost predicate Valid()
      reads this
    {
      && logs.Keys == rows.Keys
      && forall id :: id in rows ==>
        && RowOk(rows[id], logs[id])
        && rows[id].createdAt <= clock && rows[id].expiresAt <= clock + rows[id].validHours * HOUR
    }

    constructor ()
      ensures Valid() && rows == map[] && clock == 0
    {
      rows, responses, logs, clock := map[], map[], map[], 0;
    }

    /** create: the clock is read twice, for createdAt and for expiresAt. */
    method Create(id: nat, token: Hash, hours: nat, createdAt: nat, expiryReadAt: nat)
      requires Valid() && clock <= createdAt <= expiryReadAt && id !in rows
      modifies this
      ensures Valid() && clock == expiryReadAt && responses == old(responses)
      ensures rows == old(rows)[id := Row(Created, token, 0, createdAt, expiryReadAt + hours * 3_600_000, hours,
                                          None, None, None, 0)]
      ensures logs == old(logs)[id := []]
    {
      hide RowOk;
      CreatedRowOk(token, createdAt, expiryReadAt, hours);
      rows := rows[id := Row(Created, token, 0, createdAt, expiryReadAt + hours * HOUR, hours, None, None, None, 0)];
      logs := logs[id := []];
      clock := expiryReadAt;
    }

    /** send, after its mail went out. */
    method MarkSent(id: nat, sentAt: nat)
      requires Valid() && clock <= sentAt
      modifies this`rows, this`clock
      ensures Valid() && clock == sentAt
      ensures rows == if id in old(rows) && old(rows)[id].state in {Created, Sent}
                      then old(rows)[id := old(rows)[id].(state := Sent, sentAt := Some(sentAt))] else old(rows)
    {
      hide RowOk;
      clock := sentAt;
      if id in rows && rows[id].state in {Created, Sent} {
        SentRowOk(rows[id], logs[id], sentAt);
        rows := rows[id := rows[id].(state := Sent, sentAt := Some(sentAt))];
      }
    }

    method Claim(id: nat, wallet: Address, claimedAt: nat) returns (changes: nat)
      requires Valid() && clock <= claimedAt
      modifies this`rows, this`clock
      ensures Valid() && clock == claimedAt
      ensures changes == 1 <==>
              id in old(rows) && old(rows)[id].state in {Created, Sent} && claimedAt < old(rows)[id].expiresAt
      ensures rows == if changes == 1 then old(rows)[id := old(rows)[id].(state := Claimed, claimedWallet := wallet)]
                      else old(rows)
    {
      hide RowOk;
      clock := claimedAt;
      changes := 0;
      if id in rows && rows[id].state in {Created, Sent} && rows[id].expiresAt > claimedAt {
        ClaimedRowOk(rows[id], logs[id], wallet);
        rows := rows[id := rows[id].(state := Claimed, claimedWallet := wallet)];
        changes := 1;
      }
    }

    method RotateToken(id: nat, token: Hash, expiresAt: nat) returns (changes: nat)
      requires id in rows ==> expiresAt == rows[id].expiresAt
      modifies this`rows
      ensures changes == if id in old(rows) && old(rows)[id].state == Sent then 1 else 0
      ensures rows == if changes == 1 then old(rows)[id := old(rows)[id].(token := token)] else old(rows)
    {
      changes := 0;
      if id in rows && rows[id].state == Sent {
        rows := rows[id := rows[id].(token := token, expiresAt := expiresAt)];
        changes := 1;
      }
    }

    method MarkResent(id: nat, sentAt: nat, windowStartedAt: Option<nat>, resendCount: nat)
      modifies this`rows
      ensures rows == if id in old(rows) && old(rows)[id].state == Sent
                      then old(rows)[id := old(rows)[id].(sentAt := Some(sentAt), lastResendAt := Some(sentAt),
                                                          windowStartedAt := windowStartedAt, resendCount := resendCount)]
                      else old(rows)
    {
      if id in rows && rows[id].state == Sent {
        rows := rows[id := rows[id].(sentAt := Some(sentAt), lastResendAt := Some(sentAt),
                                     windowStartedAt := windowStartedAt, resendCount := resendCount)];
      }
    }

    /**
     resend up to its await. A recorded key replays and adds no attempt; otherwise exactly the
     available requests are granted, and each is one more attempt of that invitation alone.
     */
    method RequestResend(id: nat, key: Key, token: Hash, decidedAt: nat, attemptedAt: nat) returns (outcome: Outcome)
      requires Valid() && clock <= decidedAt <= attemptedAt
      modifies this`rows, this`logs, this`clock
      ensures Valid() && clock == attemptedAt
      ensures match outcome
              case Rejected(InvalidIdempotencyKey) => |key| < 8 || |key| > 160
              case Rejected(InvitationNotFound) => id !in old(rows)
              case Rejected(ResendNotAvailable) =>
                id in old(rows) && !ResendAvailability(Some(old(rows)[id]), decidedAt).available
              case Rejected(NotSendable) => false
              case Replayed(response) => (id, key) in responses && response == responses[(id, key)]
              case Mailing(at) =>
                at == attemptedAt && (id, key) !in responses && 8 <= |key| <= 160
                && id in old(rows) && ResendAvailability(Some(old(rows)[id]), decidedAt).available
      ensures !outcome.Mailing? ==> rows == old(rows) && logs == old(logs)
      ensures outcome.Mailing? ==>
                var a := ResendAvailability(Some(old(rows)[id]), decidedAt);
                && rows == old(rows)[id := Resent(old(rows)[id], a, token, attemptedAt)]
                && logs == old(logs)[id := old(logs)[id] + [AttemptOf(old(rows)[id], a, decidedAt)]]
    {
      hide RowOk;
      clock := attemptedAt;
      if |key| < 8 || |key| > 160 { return Rejected(InvalidIdempotencyKey); }
      if (id, key) in responses { return Replayed(responses[(id, key)]); }
      if id !in rows { return Rejected(InvitationNotFound); }
      var row := rows[id];
      var availability := ResendAvailability(Some(row), decidedAt);
      if !availability.available { return Rejected(ResendNotAvailable); }
      GrantKeeps(row, logs[id], token, decidedAt, attemptedAt);
      var changes := RotateToken(id, token, row.expiresAt);
      if changes != 1 { return Rejected(NotSendable); }
      MarkResent(id, attemptedAt, availability.windowStartedAt, availability.resendCount.value + 1);
      logs := logs[id := logs[id] + [AttemptOf(row, availability, decidedAt)]];
      outcome := Mailing(attemptedAt);
    }

    /** The mailer answered: a delivery is recorded under its key, once; nothing else changes. */
    method FinishResend(id: nat, key: Key, response: nat, delivered: bool) returns (recorded: bool)
      requires Valid()
      modifies this`responses
      ensures Valid()
      ensures recorded <==> delivered && (id, key) !in old(responses)
      ensures responses == if recorded then old(responses)[(id, key) := response] else old(responses)
    {
      recorded := delivered && (id, key) !in responses;
      if recorded { responses := responses[(id, key) := response]; }
    }

    /** What resendStatus reports. */
    method ResendStatus(id: nat, now: nat) returns (a: Availability)
      requires Valid()
      ensures a == ResendAvailability(if id in rows then Some(rows[id]) else None, now)
    {
      a := ResendAvailability(if id in rows then Some(rows[id]) else None, now);
    }

    /** In every state the desk can reach: five a day in any stretch, and the lifetime limit. */
    lemma LimitsHold(id: nat, from: nat)
      requires Valid() && id in rows
      ensures |Within(logs[id], from, from + DAY)| <= 5
      ensures |logs[id]| <= 3 * ((rows[id].validHours + 23) / 24)
    {
      FiveADay(logs[id], from);
      LifetimeLimit(rows[id], logs[id]);
    }
  }
}
