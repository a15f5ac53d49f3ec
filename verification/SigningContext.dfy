/** The part of the SDK's context that says who signs: the signing manager, the signing address, the nonce. */
module SigningContext {
  import opened Common

  /** A signing manager lists the addresses it can sign for. */
  datatype Manager = Manager(accounts: seq<string>)

  datatype Signing = Signing(manager: Option<Manager>, address: Option<string>, nonce: Option<int>)

  /** Which addresses are well formed for the chain. */
  type Validity = string -> bool

  function SetAddress(valid: Validity, s: Signing, address: string): (r: (Signing, Option<ErrorCode>))
    ensures r.1.Some? ==> r.0 == s
  {
    if s.manager.None? then (s, Some(General))
    else if !valid(address) then (s, Some(ValidationError))
    else if address !in s.manager.value.accounts || address == "" then (s, Some(General))
    else (s.(address := Some(address)), None)
  }

  function SetManager(valid: Validity, s: Signing, manager: Option<Manager>): (Signing, Option<ErrorCode>) {
    match manager
    case None => (s.(manager := None, address := None), None)
    case Some(m) =>
      var s1 := s.(manager := manager);
      if m.accounts == [] || m.accounts[0] == "" then (s1.(address := None), None)
      else SetAddress(valid, s1, m.accounts[0])
  }

  /** The signing address, if there is one, is listed by the current manager. */
  ghost predicate Fits(s: Signing) {
    s.address.Some? ==> s.manager.Some? && s.address.value in s.manager.value.accounts
  }

  lemma SetAddressFits(valid: Validity, s: Signing, address: string)
    requires Fits(s)
    ensures Fits(SetAddress(valid, s, address).0)
    ensures SetAddress(valid, s, address).1.None? <==>
              s.manager.Some? && valid(address) && address in s.manager.value.accounts && address != ""
    ensures SetAddress(valid, s, address).1.None? ==> SetAddress(valid, s, address).0.address == Some(address)
  {
  }

  /** A refused address changes nothing, and says why: no manager, a malformed address, or one it does not list. */
  lemma SetAddressMeans(valid: Validity, s: Signing, address: string)
    requires address != ""
    ensures var (t, error) := SetAddress(valid, s, address);
            if s.manager.None? then t == s && error == Some(General)
            else if !valid(address) then t == s && error == Some(ValidationError)
            else if address !in s.manager.value.accounts then t == s && error == Some(General)
            else t == Signing(s.manager, Some(address), s.nonce) && error.None?
  {
  }

  /** No manager clears both; one without accounts clears the address; otherwise its first account is the new
      address, or, if that is malformed, the address stays. */
  lemma SetManagerMeans(valid: Validity, s: Signing, m: Manager)
    ensures SetManager(valid, s, None) == (Signing(None, None, s.nonce), None)
    ensures m.accounts == [] ==> SetManager(valid, s, Some(m)) == (Signing(Some(m), None, s.nonce), None)
    ensures m.accounts != [] && m.accounts[0] != "" && valid(m.accounts[0]) ==>
              SetManager(valid, s, Some(m)) == (Signing(Some(m), Some(m.accounts[0]), s.nonce), None)
    ensures m.accounts != [] && m.accounts[0] != "" && !valid(m.accounts[0]) ==>
              SetManager(valid, s, Some(m)) == (Signing(Some(m), s.address, s.nonce), Some(ValidationError))
  {
  }

  /** Changing the manager keeps this exactly unless the new manager's first address is refused as malformed while
      the old address is not one of its own: the manager is replaced before that is found out. */
  lemma SetManagerFitsExactly(valid: Validity, s: Signing, m: Manager)
    requires Fits(s)
    ensures Fits(SetManager(valid, s, Some(m)).0) <==>
            || m.accounts == [] || m.accounts[0] == "" || valid(m.accounts[0])
            || s.address.None? || s.address.value in m.accounts
  {
  }

  /** So an address the SDK goes on signing for can be unknown to the manager that is asked to sign. */
  lemma OldAddressSurvives(valid: Validity)
    requires valid("old") && !valid("bad")
    ensures var s := SetManager(valid, Signing(None, None, None), Some(Manager(["old"]))).0;
            var t := SetManager(valid, s, Some(Manager(["bad"])));
            t.1 == Some(ValidationError) && t.0.address == Some("old") && !Fits(t.0)
  {
    var s := SetManager(valid, Signing(None, None, None), Some(Manager(["old"]))).0;
    assert s.address == Some("old");
    assert ["bad"][0] == "bad" && "old"[0] != "bad"[0];
  }

  datatype Change = NewManager(manager: Option<Manager>) | NewAddress(address: string)

  function Apply(valid: Validity, s: Signing, c: Change): Signing {
    match c
    case NewManager(m) => SetManager(valid, s, m).0
    case NewAddress(a) => SetAddress(valid, s, a).0
  }

  function ApplyAll(valid: Validity, s: Signing, cs: seq<Change>): Signing
    decreases |cs|
  {
    if cs == [] then s else ApplyAll(valid, Apply(valid, s, cs[0]), cs[1..])
  }

  /** Over any sequence of completed changes, with managers that list well-formed addresses. */
  lemma {:induction false} AlwaysFits(valid: Validity, s: Signing, cs: seq<Change>)
    requires Fits(s)
    requires forall c :: c in cs && c.NewManager? && c.manager.Some? ==>
               forall a :: a in c.manager.value.accounts ==> valid(a)
    ensures Fits(ApplyAll(valid, s, cs))
    decreases |cs|
  {
    if cs != [] {
      var c := cs[0];
      assert c in cs;
      assert Fits(Apply(valid, s, c)) by {
        match c
        case NewAddress(a) => SetAddressFits(valid, s, a);
        case NewManager(m) => if m.Some? { SetManagerFitsExactly(valid, s, m.value); }
      }
      AlwaysFits(valid, Apply(valid, s, c), cs[1..]);
    }
  }

  /** Without a nonce, -1 lets the node take pending transactions into account. */
  function NonceToSend(s: Signing): int {
    if s.nonce.Some? then s.nonce.value else -1
  }

  // ---------------------------------------------------------------- changes that overlap

  /** A change waits for the accounts of a manager: to take the first of them, or to look an address up. */
  datatype Waiting = ForFirst(manager: Manager) | ForAddress(manager: Manager, address: string)

  datatype Overlapping = Overlapping(signing: Signing, waiting: seq<Waiting>)

  datatype Event = Begin(change: Change) | Answer(call: nat)

  /** `setSigningAddress` up to the accounts it waits for; it throws without a manager or for a malformed address. */
  function BeginAddress(valid: Validity, s: Overlapping, address: string): Overlapping {
    if s.signing.manager.None? || !valid(address) then s
    else s.(waiting := s.waiting + [ForAddress(s.signing.manager.value, address)])
  }

  function Happens(valid: Validity, s: Overlapping, e: Event): Overlapping {
    match e
    case Begin(NewAddress(address)) => BeginAddress(valid, s, address)
    case Begin(NewManager(None)) => s.(signing := s.signing.(manager := None, address := None))
    case Begin(NewManager(Some(m))) =>
      Overlapping(s.signing.(manager := Some(m)), s.waiting + [ForFirst(m)])
    case Answer(i) =>
      if i >= |s.waiting| then s
      else
        var rest := s.(waiting := s.waiting[..i] + s.waiting[i + 1..]);
        match s.waiting[i]
        case ForFirst(m) =>
          if m.accounts == [] || m.accounts[0] == "" then rest.(signing := rest.signing.(address := None))
          else BeginAddress(valid, rest, m.accounts[0])
        case ForAddress(m, address) =>
          if address in m.accounts && address != "" then rest.(signing := rest.signing.(address := Some(address)))
          else rest
  }

  /** A change that is completed before anything else happens does what `Apply` says. */
  lemma CompletedIsApplied(valid: Validity, s: Signing, c: Change)
    ensures var begun := Happens(valid, Overlapping(s, []), Begin(c));
            var once := Happens(valid, begun, Answer(0));
            Happens(valid, once, Answer(0)) == Overlapping(Apply(valid, s, c), [])
  {
  }

  /** The answer to a call that waits to set an address breaks the fit exactly if the manager the call began with
      lists that address and the current one does not, or there is none. */
  lemma AnswerFitsExactly(valid: Validity, s: Overlapping, i: nat)
    requires Fits(s.signing) && i < |s.waiting| && s.waiting[i].ForAddress?
    ensures !Fits(Happens(valid, s, Answer(i)).signing) <==> Breaks(s, Answer(i))
  {
  }

  /** The state after any events. */
  function HappenAll(valid: Validity, s: Overlapping, es: seq<Event>): Overlapping
    decreases |es|
  {
    if es == [] then s else HappenAll(valid, Happens(valid, s, es[0]), es[1..])
  }

  /** A change of address is answered from the accounts of a manager that is not the current one, which lists it
      while the current one does not. */
  ghost predicate Breaks(s: Overlapping, e: Event) {
    && e.Answer? && e.call < |s.waiting| && s.waiting[e.call].ForAddress?
    && var call, now := s.waiting[e.call], s.signing.manager;
       && call.address in call.manager.accounts && call.address != ""
       && (now.None? || call.address !in now.value.accounts)
  }

  ghost predicate NeverBreaks(valid: Validity, s: Overlapping, es: seq<Event>)
    decreases |es|
  {
    es == [] || (!Breaks(s, es[0]) && NeverBreaks(valid, Happens(valid, s, es[0]), es[1..]))
  }

  ghost predicate WellFormed(valid: Validity, e: Event) {
    e.Begin? && e.change.NewManager? && e.change.manager.Some? ==>
      forall a :: a in e.change.manager.value.accounts ==> valid(a)
  }

  /** The address fits, or a call is under way that will set or clear it for the current manager. */
  ghost predicate FitsSoon(valid: Validity, s: Overlapping) {
    || Fits(s.signing)
    || (s.signing.manager.Some?
        && var m := s.signing.manager.value;
           && (forall a :: a in m.accounts ==> valid(a))
           && (ForFirst(m) in s.waiting
               || (m.accounts != [] && m.accounts[0] != "" && ForAddress(m, m.accounts[0]) in s.waiting)))
  }

  lemma OthersStillWait(ws: seq<Waiting>, i: nat, w: Waiting)
    requires i < |ws| && w in ws && w != ws[i]
    ensures w in ws[..i] + ws[i + 1..]
  {
    var j :| 0 <= j < |ws| && ws[j] == w;
    assert (ws[..i] + ws[i + 1..])[if j < i then j else j - 1] == w;
  }

  lemma FitsSoonNext(valid: Validity, s: Overlapping, e: Event)
    requires FitsSoon(valid, s) && WellFormed(valid, e) && !Breaks(s, e)
    ensures FitsSoon(valid, Happens(valid, s, e))
  {
    match e
    case Begin(NewAddress(address)) =>
    case Begin(NewManager(None)) =>
    case Begin(NewManager(Some(m))) => assert ForFirst(m) in s.waiting + [ForFirst(m)];
    case Answer(i) => if i < |s.waiting| { AnswerFitsSoon(valid, s, i); }
  }

  lemma AnswerFitsSoon(valid: Validity, s: Overlapping, i: nat)
    requires FitsSoon(valid, s) && i < |s.waiting| && !Breaks(s, Answer(i))
    ensures FitsSoon(valid, Happens(valid, s, Answer(i)))
  {
    var t := Happens(valid, s, Answer(i));
    var rest := s.waiting[..i] + s.waiting[i + 1..];
    assert rest <= t.waiting;
    if !Fits(s.signing) {
      var m := s.signing.manager.value;
      if ForFirst(m) in s.waiting && s.waiting[i] != ForFirst(m) {
        OthersStillWait(s.waiting, i, ForFirst(m));
      } else if ForFirst(m) in s.waiting {
        assert t.waiting == rest || ForAddress(m, m.accounts[0]) == t.waiting[|rest|];
      } else if s.waiting[i] != ForAddress(m, m.accounts[0]) {
        OthersStillWait(s.waiting, i, ForAddress(m, m.accounts[0]));
      }
    }
  }

  /** Over any events, with managers that list well-formed addresses: whenever no call is under way, the address is
      unset or listed by the current manager, unless some answer on the way broke the fit. */
  lemma {:induction false} FitsWhenQuiet(valid: Validity, s: Overlapping, es: seq<Event>)
    requires FitsSoon(valid, s) && NeverBreaks(valid, s, es)
    requires forall e :: e in es ==> WellFormed(valid, e)
    ensures var t := HappenAll(valid, s, es);
            FitsSoon(valid, t) && (t.waiting == [] ==> Fits(t.signing))
    decreases |es|
  {
    if es != [] {
      assert es[0] in es;
      FitsSoonNext(valid, s, es[0]);
      FitsWhenQuiet(valid, Happens(valid, s, es[0]), es[1..]);
    }
  }

  /** So when all calls are over, the context can sign for an address its manager does not list: a change of
      address begins, the manager is changed meanwhile, and the first call is answered last. */
  lemma OverlapBreaksIt(valid: Validity)
    requires valid("a") && valid("b")
    ensures var s0 := Overlapping(Signing(Some(Manager(["a"])), None, None), []);
            var s1 := Happens(valid, s0, Begin(NewAddress("a")));
            var s2 := Happens(valid, s1, Begin(NewManager(Some(Manager(["b"])))));
            var s3 := Happens(valid, s2, Answer(1));
            var s4 := Happens(valid, s3, Answer(1));
            var s5 := Happens(valid, s4, Answer(0));
            s5.waiting == [] && s5.signing.address == Some("a") && s5.signing.manager == Some(Manager(["b"]))
  {
    var a, b := Manager(["a"]), Manager(["b"]);
    assert b.accounts[0] == "b" && "b" != "" && "a" in a.accounts && "b" in b.accounts;
    var s2 := Overlapping(Signing(Some(b), None, None), [ForAddress(a, "a"), ForFirst(b)]);
    var s3 := Overlapping(Signing(Some(b), None, None), [ForAddress(a, "a"), ForAddress(b, "b")]);
    assert Happens(valid, s2, Answer(1)) == s3;
    assert Happens(valid, s3, Answer(1)) == Overlapping(Signing(Some(b), Some("b"), None), [ForAddress(a, "a")]);
  }

  class Context {
    const valid: Validity
    var signingManager: Option<Manager>
    var signingAddress: Option<string>
    var nonce: Option<int>

    function View(): Signing
      reads this
    {
      Signing(signingManager, signingAddress, nonce)
    }

    constructor (valid: Validity)
      ensures View() == Signing(None, None, None) && this.valid == valid
    {
      this.valid := valid;
      signingManager, signingAddress, nonce := None, None, None;
    }

    /** A shallow copy. */
    method Clone() returns (copy: Context)
      ensures fresh(copy) && copy.View() == View() && copy.valid == valid
    {
      copy := new Context(valid);
      copy.signingManager, copy.signingAddress, copy.nonce := signingManager, signingAddress, nonce;
    }

    method SetSigningAddress(address: string) returns (error: Option<ErrorCode>)
      modifies this
      ensures (View(), error) == SetAddress(valid, old(View()), address)
    {
      if signingManager.None? {
        return Some(General);
      }
      if !valid(address) {
        return Some(ValidationError);
      }
      if address !in signingManager.value.accounts || address == "" {
        return Some(General);
      }
      signingAddress := Some(address);
      error := None;
    }

    method SetSigningManager(manager: Option<Manager>) returns (error: Option<ErrorCode>)
      modifies this
      ensures (View(), error) == SetManager(valid, old(View()), manager)
    {
      if manager.None? {
        signingManager, signingAddress := None, None;
        return None;
      }
      signingManager := manager;
      var accounts := manager.value.accounts;
      if accounts == [] || accounts[0] == "" {
        signingAddress := None;
        error := None;
      } else {
        error := SetSigningAddress(accounts[0]);
      }
    }

    method SetNonce(newNonce: Option<int>)
      modifies this
      ensures View() == old(View()).(nonce := newNonce)
    {
      nonce := newNonce;
    }

    method GetNonce() returns (n: int)
      ensures n == NonceToSend(View())
    {
      n := if nonce.Some? then nonce.value else -1;
    }
  }
}
