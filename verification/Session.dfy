// The database as one transaction sees and updates it.
module Session {
  import opened Model

  class Session {
    var accounts: seq<Account>
    var principals: seq<Principal>
    var tasks: seq<Task>
    var agents: seq<Agent>
    var mandates: seq<Mandate>
    var holds: seq<Hold>
    var invocations: seq<Invocation>
    var claims: map<ClaimKey, Claim>
    var receipts: seq<Receipt>
    var outbox: seq<OutboxRow>
    var events: seq<Event>
    var recons: seq<ReconciliationEvent>
    var nonces: set<Nonce>

    constructor (db: Db)
      ensures Tables() == db
    {
      accounts, principals, tasks := db.accounts, db.principals, db.tasks;
      agents, mandates, holds, invocations := db.agents, db.mandates, db.holds, db.invocations;
      claims, receipts, outbox := db.claims, db.receipts, db.outbox;
      events, recons, nonces := db.events, db.recons, db.nonces;
    }

    /** All tables at once; taken at the start of a savepoint. */
    function Tables(): Db
      reads this
    {
      Db(accounts, principals, tasks, agents, mandates, holds, invocations, claims, receipts, outbox, events, recons,
         nonces)
    }

    /** Undo every write since the savepoint. */
    method RollbackTo(savepoint: Db)
      modifies this
      ensures Tables() == savepoint
    {
      RestoreParties(savepoint);
      RestoreAttempts(savepoint);
      RestoreLogs(savepoint);
    }

    method RestoreParties(savepoint: Db)
      modifies `accounts, `principals, `tasks, `agents, `mandates
      ensures accounts == savepoint.accounts && principals == savepoint.principals && tasks == savepoint.tasks
      ensures agents == savepoint.agents && mandates == savepoint.mandates
    {
      accounts, principals, tasks := savepoint.accounts, savepoint.principals, savepoint.tasks;
      agents, mandates := savepoint.agents, savepoint.mandates;
    }

    method RestoreAttempts(savepoint: Db)
      modifies `holds, `invocations, `claims, `nonces
      ensures holds == savepoint.holds && invocations == savepoint.invocations
      ensures claims == savepoint.claims && nonces == savepoint.nonces
    {
      holds, invocations := savepoint.holds, savepoint.invocations;
      claims, nonces := savepoint.claims, savepoint.nonces;
    }

    method RestoreLogs(savepoint: Db)
      modifies `receipts, `outbox, `events, `recons
      ensures receipts == savepoint.receipts && outbox == savepoint.outbox
      ensures events == savepoint.events && recons == savepoint.recons
    {
      receipts, outbox := savepoint.receipts, savepoint.outbox;
      events, recons := savepoint.events, savepoint.recons;
    }
  }
}
