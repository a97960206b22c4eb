/**
 * The `users` table both database-backed services read and write. The SQL session
 * is replaced by an in-memory map from user id to row; every service operation is
 * one read-modify-write of a single row.
 */
module Db {
  import opened Basics
  import opened Progression

  /** One row of the `users` table (the moderation `warnings` column is left out). */
  datatype User = User(
    balance: int,
    wins: int,
    losses: int,
    streak: int,
    maxRiskWin: real,
    achievements: seq<string>,
    activeQuest: Option<Quest>,
    gearLevel: int,
    maxGearLevel: int,
    gearName: string,            // "" stands for a missing name
    maxGamblingWin: int,
    totalGamblingWin: int,
    lastClaimTime: Option<int>)  // seconds

  /** The store: user id to row. */
  class UserTable {
    var rows: map<int, User>

    constructor ()
      ensures rows == map[]
    {
      rows := map[];
    }
  }

  /** The row a service works on: the stored one, or the row it creates when there is none. */
  function Loaded(rows: map<int, User>, id: int, created: User): (u: User)
    ensures id in rows ==> u == rows[id]
    ensures id !in rows ==> u == created
  {
    if id in rows then rows[id] else created
  }

  /** The account invariant: what every row the services create or update satisfies. */
  predicate ValidUser(u: User) {
    && u.balance >= 0
    && u.wins >= 0 && u.losses >= 0
    && 0.0 <= u.maxRiskWin <= 1.0
    && NoDup(u.achievements)
    && (u.activeQuest.Some? ==> WellFormedQuest(u.activeQuest.value))
    && 1 <= u.gearLevel <= u.maxGearLevel <= 100
    && 0 <= u.maxGamblingWin <= u.totalGamblingWin
  }
}
