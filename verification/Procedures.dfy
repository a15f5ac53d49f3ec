/** A procedure: it clones the caller's context, checks whether the signer may run it, and prepares a transaction. */
module Procedures {
  import opened Common
  import opened SigningContext
  import Fees

  // ---------------------------------------------------------------- what is asked for, and what is answered

  datatype Roles = AllowRoles(granted: bool) | DenyRoles(reason: string) | TheseRoles(roles: seq<string>)

  /** Permissions asked for: `assets` and `transactions` may each be left out. */
  datatype Permissions =
    | Allow(granted: bool)
    | Deny(reason: string)
    | These(assets: Option<seq<string>>, transactions: Option<seq<string>>)

  datatype Authorization = Authorization(
    permissions: Option<Permissions>,
    signerPermissions: Option<Permissions>,
    agentPermissions: Option<Permissions>,
    roles: Option<Roles>
  )

  datatype Check = Check(granted: bool, message: Option<string>, missing: seq<string>)

  datatype Status = Status(roles: Check, signer: Check, agent: Check, accountFrozen: bool, noIdentity: bool)

  /** `Falsy` is a storage JavaScript takes for none at all. */
  datatype Storage = Falsy | Stored(content: string)

  /** What a procedure prepares: one transaction or several, and the account of the third party that pays, if any. */
  datatype Transactions =
    | One(entry: Fees.Entry, paidForBy: Option<string>)
    | Several(entries: seq<Fees.Entry>, paidForBy: Option<string>)

  /** The functions a procedure is made of. Each may depend on the cloned context and the storage, and may throw. */
  datatype Callbacks = Callbacks(
    prepareStorage: Signing -> Result<Storage, ErrorCode>,
    getAuthorization: (Signing, Storage) -> Result<Authorization, ErrorCode>,
    prepareTransactions: (Signing, Storage) -> Result<Transactions, ErrorCode>
  )

  /** The chain's answers, each of which may also fail to come. */
  datatype World = World(
    identity: string -> Result<Option<string>, ErrorCode>,
    frozen: string -> Result<bool, ErrorCode>,
    checkRoles: (string, seq<string>) -> Result<Check, ErrorCode>,
    accountPermissions: (string, Permissions) -> Result<Check, ErrorCode>,
    agentPermissions: (string, string, seq<string>) -> Result<Check, ErrorCode>
  )

  /** The nonce may be computed or awaited, and that may fail. */
  datatype Options = Options(signingAccount: Option<string>, nonce: Result<Option<int>, ErrorCode>)

  // ---------------------------------------------------------------- the decision

  function Or<T>(o: Option<T>, default: T): T {
    if o.Some? then o.value else default
  }

  function Plain(granted: bool): Check {
    Check(granted, None, [])
  }

  function Denied(reason: string): Check {
    Check(false, Some(reason), [])
  }

  /** Agent permissions are looked up only if both lists are there and not empty. */
  predicate AsksAgent(p: Permissions) {
    p.These? && p.assets.Some? && p.assets.value != [] && p.transactions.Some? && p.transactions.value != []
  }

  function RolesCheck(w: World, roles: Roles, address: string): Result<Check, ErrorCode> {
    match roles
    case AllowRoles(granted) => Ok(Plain(granted))
    case DenyRoles(reason) => Ok(Denied(reason))
    case TheseRoles(rs) =>
      var identity :- w.identity(address);
      if identity.None? then Ok(Check(false, None, rs)) else w.checkRoles(identity.value, rs)
  }

  function AgentCheck(w: World, p: Permissions, address: string): Result<Check, ErrorCode> {
    match p
    case Allow(granted) => Ok(Plain(granted))
    case Deny(reason) => Ok(Denied(reason))
    case These(assets, transactions) =>
      if !AsksAgent(p) then Ok(Plain(true))
      else if |assets.value| > 1 then Err(FatalError)
      else
        var identity :- w.identity(address);
        if identity.None? then Ok(Check(false, None, transactions.value))
        else w.agentPermissions(identity.value, assets.value[0], transactions.value)
  }

  function SignerCheck(w: World, p: Permissions, address: string): Result<Check, ErrorCode> {
    match p
    case Allow(granted) => Ok(Plain(granted))
    case Deny(reason) => Ok(Denied(reason))
    case These(_, _) => w.accountPermissions(address, p)
  }

  /** The permissions in force: the specific ones, or the general ones, or none needed. */
  function SignerWants(a: Authorization): Permissions {
    Or(a.signerPermissions, Or(a.permissions, Allow(true)))
  }

  function AgentWants(a: Authorization): Permissions {
    Or(a.agentPermissions, Or(a.permissions, Allow(true)))
  }

  function RolesWanted(a: Authorization): Roles {
    Or(a.roles, AllowRoles(true))
  }

  predicate WantsIdentity(a: Authorization) {
    RolesWanted(a).TheseRoles? || AsksAgent(AgentWants(a))
  }

  function NoIdentity(w: World, a: Authorization, address: string): bool {
    WantsIdentity(a) && w.identity(address) == Ok(None)
  }

  /** `_checkAuthorization` after its setup. */
  function Decide(cb: Callbacks, w: World, ctx: Signing, storage: Storage): Result<Status, ErrorCode> {
    var a :- cb.getAuthorization(ctx, storage);
    if ctx.address.None? then Err(General)
    else
      var address := ctx.address.value;
      var roles :- RolesCheck(w, RolesWanted(a), address);
      var agent :- AgentCheck(w, AgentWants(a), address);
      var signer :- SignerCheck(w, SignerWants(a), address);
      var frozen :- w.frozen(address);
      Ok(Status(roles, signer, agent, frozen, NoIdentity(w, a, address)))
  }

  // ---------------------------------------------------------------- setup

  /** An empty address counts as none. */
  predicate Overrides(opts: Options) {
    opts.signingAccount.Some? && opts.signingAccount.value != ""
  }

  /** The clone with its overrides. The nonce is always the one given, or none: the caller's is not inherited. */
  function Cloned(valid: Validity, base: Signing, opts: Options): Result<Signing, ErrorCode> {
    var nonce :- opts.nonce;
    var ctx := base.(nonce := nonce);
    if !Overrides(opts) then Ok(ctx)
    else
      var (moved, error) := SetAddress(valid, ctx, opts.signingAccount.value);
      if error.Some? then Err(error.value) else Ok(moved)
  }

  /** What both `prepare` and `checkAuthorization` start from: the context and the storage. */
  function Prepared(cb: Callbacks, valid: Validity, base: Signing, opts: Options): Result<(Signing, Storage), ErrorCode> {
    var ctx :- Cloned(valid, base, opts);
    var storage :- cb.prepareStorage(ctx);
    Ok((ctx, storage))
  }

  function CheckResult(cb: Callbacks, w: World, valid: Validity, base: Signing, opts: Options): Result<Status, ErrorCode> {
    var (ctx, storage) :- Prepared(cb, valid, base, opts);
    Decide(cb, w, ctx, storage)
  }

  // ---------------------------------------------------------------- preparing

  datatype Reason = MissingIdentity | Frozen | SignerLacks | AgentLacks | RolesLack
  datatype Failure = Threw(code: ErrorCode) | Unauthorized(reason: Reason)

  /** The first thing that stands in the way. */
  function Obstacle(st: Status): Option<Reason> {
    if st.noIdentity then Some(MissingIdentity)
    else if st.accountFrozen then Some(Frozen)
    else if !st.signer.granted then Some(SignerLacks)
    else if !st.agent.granted then Some(AgentLacks)
    else if !st.roles.granted then Some(RolesLack)
    else None
  }

  /** A transaction that can be run; `nonce` is what it will be sent with. */
  datatype Ready = Ready(tx: Fees.Tx, signingAddress: string, nonce: int)

  /** Construction of the transaction once everything is granted. */
  function Build(ctx: Signing, nonce: int, transactions: Transactions): Result<Ready, Failure> {
    if ctx.address.None? || ctx.manager.None? then Err(Threw(General))
    else
      var tx := match transactions
                case One(entry, paidForBy) => Fees.Single(entry, paidForBy)
                case Several(entries, paidForBy) => Fees.Collapse(entries, paidForBy);
      Ok(Ready(tx, ctx.address.value, nonce))
  }

  function PrepareResult(cb: Callbacks, w: World, valid: Validity, base: Signing, opts: Options): Result<Ready, Failure> {
    match CheckResult(cb, w, valid, base, opts)
    case Err(code) => Err(Threw(code))
    case Ok(st) =>
      match Obstacle(st)
      case Some(reason) => Err(Unauthorized(reason))
      case None =>
        var (ctx, storage) := Prepared(cb, valid, base, opts).value;
        match cb.prepareTransactions(ctx, storage)
        case Err(code) => Err(Threw(code))
        case Ok(transactions) => Build(ctx, NonceToSend(ctx), transactions)
  }

  // ---------------------------------------------------------------- the answers, case by case

  /** What is asked of the signer: the permissions for the signer, or else the general ones. A verdict stands as it
      is given, permissions are looked up for the account, and nothing asked is granted. */
  lemma SignerAnswer(cb: Callbacks, w: World, ctx: Signing, storage: Storage)
    requires Decide(cb, w, ctx, storage).Ok?
    ensures var st := Decide(cb, w, ctx, storage).value;
            var a := cb.getAuthorization(ctx, storage).value;
            var asked := if a.signerPermissions.Some? then a.signerPermissions else a.permissions;
            match asked
            case None => st.signer == Check(true, None, [])
            case Some(Allow(granted)) => st.signer == Check(granted, None, [])
            case Some(Deny(reason)) => st.signer == Check(false, Some(reason), [])
            case Some(These(assets, transactions)) =>
              Ok(st.signer) == w.accountPermissions(ctx.address.value, These(assets, transactions))
  {
  }

  /** What is asked of the signing identity as an agent: the permissions for agents, or else the general ones. They
      are looked up for the one asset, if there are transactions too; without an identity they are all missing. */
  lemma AgentAnswer(cb: Callbacks, w: World, ctx: Signing, storage: Storage)
    requires Decide(cb, w, ctx, storage).Ok?
    ensures var st := Decide(cb, w, ctx, storage).value;
            var a := cb.getAuthorization(ctx, storage).value;
            var asked := if a.agentPermissions.Some? then a.agentPermissions else a.permissions;
            match asked
            case None => st.agent == Check(true, None, [])
            case Some(Allow(granted)) => st.agent == Check(granted, None, [])
            case Some(Deny(reason)) => st.agent == Check(false, Some(reason), [])
            case Some(These(Some(assets), Some(transactions))) =>
              if assets == [] || transactions == [] then st.agent == Check(true, None, [])
              else
                var identity := w.identity(ctx.address.value);
                && |assets| == 1 && identity.Ok?
                && if identity.value.None? then st.agent == Check(false, None, transactions)
                   else Ok(st.agent) == w.agentPermissions(identity.value.value, assets[0], transactions)
            case Some(These(_, _)) => st.agent == Check(true, None, [])
  {
  }

  /** The roles asked for are checked for the signing identity; without one they are all missing. Whether the account
      is frozen is always asked. */
  lemma RolesAndFreezeAnswer(cb: Callbacks, w: World, ctx: Signing, storage: Storage)
    requires Decide(cb, w, ctx, storage).Ok?
    ensures var st := Decide(cb, w, ctx, storage).value;
            var a := cb.getAuthorization(ctx, storage).value;
            && Ok(st.accountFrozen) == w.frozen(ctx.address.value)
            && match a.roles
               case None => st.roles == Check(true, None, [])
               case Some(AllowRoles(granted)) => st.roles == Check(granted, None, [])
               case Some(DenyRoles(reason)) => st.roles == Check(false, Some(reason), [])
               case Some(TheseRoles(rs)) =>
                 var identity := w.identity(ctx.address.value);
                 && identity.Ok?
                 && if identity.value.None? then st.roles == Check(false, None, rs)
                    else Ok(st.roles) == w.checkRoles(identity.value.value, rs)
  {
  }

  /** A decision is refused when the callback throws, without a signing address, and for agent permissions over
      several assets. */
  lemma NoDecision(cb: Callbacks, w: World, ctx: Signing, storage: Storage)
    ensures cb.getAuthorization(ctx, storage).Err? ==>
              Decide(cb, w, ctx, storage) == Err(cb.getAuthorization(ctx, storage).error)
    ensures cb.getAuthorization(ctx, storage).Ok? && ctx.address.None? ==> Decide(cb, w, ctx, storage) == Err(General)
    ensures cb.getAuthorization(ctx, storage).Ok? && ctx.address.Some? ==>
              var a := cb.getAuthorization(ctx, storage).value;
              match if a.agentPermissions.Some? then a.agentPermissions else a.permissions
              case Some(These(Some(assets), Some(transactions))) =>
                |assets| > 1 && transactions != [] ==> Decide(cb, w, ctx, storage).Err?
              case _ => true
  {
  }

  /** The clone: the caller's context with the nonce given, and with the address given if the manager lists it. */
  lemma CloneMeans(valid: Validity, base: Signing, opts: Options)
    ensures match opts
            case Options(_, Err(code)) => Cloned(valid, base, opts) == Err(code)
            case Options(None, Ok(nonce)) => Cloned(valid, base, opts) == Ok(Signing(base.manager, base.address, nonce))
            case Options(Some(address), Ok(nonce)) =>
              if address == "" then Cloned(valid, base, opts) == Ok(Signing(base.manager, base.address, nonce))
              else if base.manager.None? then Cloned(valid, base, opts) == Err(General)
              else if !valid(address) then Cloned(valid, base, opts) == Err(ValidationError)
              else if address !in base.manager.value.accounts then Cloned(valid, base, opts) == Err(General)
              else Cloned(valid, base, opts) == Ok(Signing(base.manager, Some(address), nonce))
  {
  }

  /** Both `prepare` and `checkAuthorization` decide for the clone and the storage prepared with it, and throw what
      making either of them throws. */
  lemma CheckMeans(cb: Callbacks, w: World, valid: Validity, base: Signing, opts: Options)
    ensures match Cloned(valid, base, opts)
            case Err(code) => CheckResult(cb, w, valid, base, opts) == Err(code)
            case Ok(ctx) =>
              match cb.prepareStorage(ctx)
              case Err(code) => CheckResult(cb, w, valid, base, opts) == Err(code)
              case Ok(storage) => CheckResult(cb, w, valid, base, opts) == Decide(cb, w, ctx, storage)
  {
  }

  /** With everything granted, `prepare` gives the transaction that was prepared, or the batch of several, one alone
      not being wrapped, with its third party; or throws what preparing them threw. */
  lemma PreparedMeans(cb: Callbacks, w: World, valid: Validity, base: Signing, opts: Options, ctx: Signing, storage: Storage)
    requires Cloned(valid, base, opts) == Ok(ctx) && cb.prepareStorage(ctx) == Ok(storage)
    requires Decide(cb, w, ctx, storage).Ok? && AllGranted(Decide(cb, w, ctx, storage).value)
    ensures var result := PrepareResult(cb, w, valid, base, opts);
            match cb.prepareTransactions(ctx, storage)
            case Err(code) => result == Err(Threw(code))
            case Ok(transactions) =>
              if ctx.manager.None? then result == Err(Threw(General))
              else
                && result.Ok? && Some(result.value.signingAddress) == ctx.address
                && match transactions
                   case One(entry, paidForBy) => result.value.tx == Fees.Single(entry, paidForBy)
                   case Several(entries, paidForBy) =>
                     if |entries| == 1 then result.value.tx == Fees.Single(entries[0], paidForBy)
                     else result.value.tx == Fees.Batch(entries, paidForBy)
  {
  }

  // ---------------------------------------------------------------- what follows

  ghost predicate AllGranted(st: Status) {
    !st.noIdentity && !st.accountFrozen && st.signer.granted && st.agent.granted && st.roles.granted
  }

  /** `prepare` refuses for lack of authorization exactly when `checkAuthorization` reports something missing, and
      then names the first of: identity, frozen account, signer, agent, roles. */
  lemma RefusedExactly(cb: Callbacks, w: World, valid: Validity, base: Signing, opts: Options)
    ensures var check := CheckResult(cb, w, valid, base, opts);
            var result := PrepareResult(cb, w, valid, base, opts);
            && ((result.Err? && result.error.Unauthorized?) <==> check.Ok? && !AllGranted(check.value))
            && (check.Err? ==> result == Err(Threw(check.error)))
            && (result.Ok? ==> check.Ok? && AllGranted(check.value))
            && (result.Err? && result.error.Unauthorized? ==>
                 match result.error.reason
                 case MissingIdentity => check.value.noIdentity
                 case Frozen => check.value.accountFrozen && !check.value.noIdentity
                 case SignerLacks => !check.value.signer.granted && !check.value.accountFrozen && !check.value.noIdentity
                 case AgentLacks =>
                   && !check.value.agent.granted && check.value.signer.granted
                   && !check.value.accountFrozen && !check.value.noIdentity
                 case RolesLack =>
                   && !check.value.roles.granted && check.value.agent.granted && check.value.signer.granted
                   && !check.value.accountFrozen && !check.value.noIdentity)
  {
  }

  /** An identity is missed exactly when the account has none and a list of roles is asked for, or agent
      permissions with assets and transactions; and then what asked for it is not granted. */
  lemma IdentityMissedExactly(cb: Callbacks, w: World, ctx: Signing, storage: Storage)
    requires Decide(cb, w, ctx, storage).Ok?
    ensures var st := Decide(cb, w, ctx, storage).value;
            var a := cb.getAuthorization(ctx, storage).value;
            && (st.noIdentity <==>
                 && w.identity(ctx.address.value) == Ok(None)
                 && (RolesWanted(a).TheseRoles? || AsksAgent(AgentWants(a))))
            && (st.noIdentity ==> !st.roles.granted || !st.agent.granted)
  {
  }

  /** Options change the clone alone, and a prepared transaction carries them. */
  lemma OptionsReachTheTransaction(cb: Callbacks, w: World, valid: Validity, base: Signing, opts: Options)
    requires PrepareResult(cb, w, valid, base, opts).Ok?
    ensures var r := PrepareResult(cb, w, valid, base, opts).value;
            && opts.nonce.Ok? && r.nonce == (if opts.nonce.value.Some? then opts.nonce.value.value else -1)
            && (Overrides(opts) ==> r.signingAddress == opts.signingAccount.value)
            && (!Overrides(opts) ==> base.address == Some(r.signingAddress))
            && base.manager.Some?
            && (Overrides(opts) ==> r.signingAddress in base.manager.value.accounts && valid(r.signingAddress))
  {
  }

  /** How often the storage is prepared by one call of `prepare`. */
  function Preparations(cb: Callbacks, valid: Validity, base: Signing, opts: Options): nat {
    match Cloned(valid, base, opts)
    case Err(_) => 0
    case Ok(ctx) => if cb.prepareStorage(ctx) == Ok(Falsy) then 2 else 1
  }

  /** At most once, exactly unless it comes out as something JavaScript takes for no storage. */
  lemma PreparedOnceExactly(cb: Callbacks, valid: Validity, base: Signing, opts: Options)
    ensures Preparations(cb, valid, base, opts) <= 1 <==>
              (Prepared(cb, valid, base, opts).Err? || Prepared(cb, valid, base, opts).value.1 != Falsy)
  {
  }

  // ---------------------------------------------------------------- the procedure

  class Procedure {
    const callbacks: Callbacks
    var context: Context?
    var storage: Option<Storage>

    /** How often `prepareStorage` has been called. */
    ghost var preparations: nat

    constructor (callbacks: Callbacks)
      ensures Idle() && this.callbacks == callbacks
    {
      this.callbacks := callbacks;
      context, storage, preparations := null, None, 0;
    }

    /** Between calls nothing is kept. */
    ghost predicate Idle()
      reads this
    {
      context == null && storage.None?
    }

    method Cleanup()
      modifies `context, `storage
      ensures Idle()
    {
      context, storage := null, None;
    }

    method CloneWith(base: Context, opts: Options) returns (r: Result<Context, ErrorCode>)
      ensures r.Err? <==> Cloned(base.valid, base.View(), opts).Err?
      ensures r.Err? ==> r.error == Cloned(base.valid, base.View(), opts).error
      ensures r.Ok? ==> fresh(r.value) && r.value.View() == Cloned(base.valid, base.View(), opts).value
    {
      var ctx := base.Clone();
      if opts.nonce.Err? {
        return Err(opts.nonce.error);
      }
      ctx.SetNonce(opts.nonce.value);
      if Overrides(opts) {
        var error := ctx.SetSigningAddress(opts.signingAccount.value);
        if error.Some? {
          return Err(error.value);
        }
      }
      r := Ok(ctx);
    }

    /** Sets the context and the storage, unless they are set already. */
    method Setup(base: Context, opts: Options) returns (error: Option<ErrorCode>)
      modifies this
      ensures old(context) != null ==> context == old(context)
      ensures old(context) == null && Cloned(base.valid, base.View(), opts).Err? ==>
                && error == Some(Cloned(base.valid, base.View(), opts).error)
                && context == null && storage == old(storage) && preparations == old(preparations)
      ensures old(context) == null && Cloned(base.valid, base.View(), opts).Ok? ==>
                context != null && fresh(context) && context.View() == Cloned(base.valid, base.View(), opts).value
      ensures context != null && (old(storage).None? || old(storage) == Some(Falsy)) ==>
                && preparations == old(preparations) + 1
                && match callbacks.prepareStorage(context.View())
                   case Err(code) => error == Some(code) && storage == old(storage)
                   case Ok(s) => error.None? && storage == Some(s)
      ensures context != null && old(storage).Some? && old(storage) != Some(Falsy) ==>
                error.None? && storage == old(storage) && preparations == old(preparations)
    {
      if context == null {
        var cloned := CloneWith(base, opts);
        if cloned.Err? {
          return Some(cloned.error);
        }
        context := cloned.value;
      }
      if storage.None? || storage.value.Falsy? {
        preparations := preparations + 1;
        var prepared := callbacks.prepareStorage(context.View());
        if prepared.Err? {
          return Some(prepared.error);
        }
        storage := Some(prepared.value);
      }
      error := None;
    }

    /** The decision, step by step. */
    method Authorize(w: World) returns (r: Result<Status, ErrorCode>)
      requires context != null && storage.Some?
      ensures r == Decide(callbacks, w, context.View(), storage.value)
    {
      var asked := callbacks.getAuthorization(context.View(), storage.value);
      if asked.Err? {
        return Err(asked.error);
      }
      var a := asked.value;
      var permissions, roles := Or(a.permissions, Allow(true)), Or(a.roles, AllowRoles(true));
      var signerPermissions, agentPermissions := Or(a.signerPermissions, permissions), Or(a.agentPermissions, permissions);
      if context.signingAddress.None? {
        return Err(General);
      }
      var account := context.signingAddress.value;
      var identity: Option<string> := None;
      var noIdentity := false;
      var rolesResult: Check;
      match roles {
        case AllowRoles(granted) => rolesResult := Plain(granted);
        case DenyRoles(reason) => rolesResult := Denied(reason);
        case TheseRoles(rs) =>
          var fetched := w.identity(account);
          if fetched.Err? {
            return Err(fetched.error);
          }
          identity := fetched.value;
          noIdentity := identity.None?;
          rolesResult := Check(false, None, rs);
          if identity.Some? {
            var checked := w.checkRoles(identity.value, rs);
            if checked.Err? {
              return Err(checked.error);
            }
            rolesResult := checked.value;
          }
      }
      var agentResult: Check;
      match agentPermissions {
        case Allow(granted) => agentResult := Plain(granted);
        case Deny(reason) => agentResult := Denied(reason);
        case These(assets, transactions) =>
          agentResult := Plain(true);
          if AsksAgent(agentPermissions) {
            if |assets.value| > 1 {
              return Err(FatalError);
            }
            if identity.None? {
              var fetched := w.identity(account);
              if fetched.Err? {
                return Err(fetched.error);
              }
              identity := fetched.value;
            }
            noIdentity := identity.None?;
            if identity.None? {
              agentResult := Check(false, None, transactions.value);
            } else {
              var checked := w.agentPermissions(identity.value, assets.value[0], transactions.value);
              if checked.Err? {
                return Err(checked.error);
              }
              agentResult := checked.value;
            }
          }
      }
      var signerResult := SignerCheck(w, signerPermissions, account);
      if signerResult.Err? {
        return Err(signerResult.error);
      }
      var accountFrozen := w.frozen(account);
      if accountFrozen.Err? {
        return Err(accountFrozen.error);
      }
      r := Ok(Status(rolesResult, signerResult.value, agentResult, accountFrozen.value, noIdentity));
    }

    method CheckAuthorization(w: World, base: Context, opts: Options) returns (r: Result<Status, ErrorCode>)
      requires Idle()
      modifies this
      ensures Idle()
      ensures r == CheckResult(callbacks, w, base.valid, base.View(), opts)
      ensures preparations <= old(preparations) + 1
    {
      var error := Setup(base, opts);
      if error.Some? {
        r := Err(error.value);
      } else {
        r := Authorize(w);
      }
      Cleanup();
    }

    method Prepare(w: World, base: Context, opts: Options) returns (r: Result<Ready, Failure>)
      requires Idle()
      modifies this
      ensures Idle()
      ensures r == PrepareResult(callbacks, w, base.valid, base.View(), opts)
      ensures preparations == old(preparations) + Preparations(callbacks, base.valid, base.View(), opts)
    {
      r := PrepareSteps(w, base, opts);
      Cleanup();
    }

    /** The body of `prepare`. The authorization check sets up again, which only prepares a falsy storage anew. */
    method PrepareSteps(w: World, base: Context, opts: Options) returns (r: Result<Ready, Failure>)
      requires Idle()
      modifies this
      ensures r == PrepareResult(callbacks, w, base.valid, base.View(), opts)
      ensures preparations == old(preparations) + Preparations(callbacks, base.valid, base.View(), opts)
    {
      var error := Setup(base, opts);
      if error.Some? {
        return Err(Threw(error.value));
      }
      var transactions := callbacks.prepareTransactions(context.View(), storage.value);
      error := Setup(context, Options(None, Ok(None)));
      assert error.None?;
      var checked := Authorize(w);
      if checked.Err? {
        return Err(Threw(checked.error));
      }
      var st := checked.value;
      if st.noIdentity {
        return Err(Unauthorized(MissingIdentity));
      }
      if st.accountFrozen {
        return Err(Unauthorized(Frozen));
      }
      if !st.signer.granted {
        return Err(Unauthorized(SignerLacks));
      }
      if !st.agent.granted {
        return Err(Unauthorized(AgentLacks));
      }
      if !st.roles.granted {
        return Err(Unauthorized(RolesLack));
      }
      if transactions.Err? {
        return Err(Threw(transactions.error));
      }
      var nonce := context.GetNonce();
      r := Build(context.View(), nonce, transactions.value);
    }
  }
}
