/**
 API key recovery (src/ApiKeyRecovery.cpp, DispatcharrClient::ObtainApiKey): any number of clients
 share the one key an account has, and generating a key overwrites it for all of them.
 */
module ApiKey {
  import opened Common

  datatype KeyState = Present | NoKey | Unsupported | TransientError

  datatype Lookup = Lookup(state: KeyState, key: string)

  /** The "key" member of the response body, as far as the classification looks at it. */
  datatype Body = NotAnObject | NoKeyMember | NullKey | OtherKey | StringKey(text: string)

  /** Tab, newline, vertical tab, form feed, carriage return or blank. */
  predicate IsSpace(c: char): (yes: bool)
    ensures yes <==> 9 <= c as int <= 13 || c as int == 32
  {
    c in " \t\n\r" || c as int == 11 || c as int == 12
  }

  predicate Blank(s: string) { forall i :: 0 <= i < |s| ==> IsSpace(s[i]) }

  function ParseListResponse(b: Body): (l: Lookup)
    ensures l.state.Present? <==> b.StringKey? && !Blank(b.text)
    ensures l.state.Present? ==> l.key == b.text && l.key != ""
    ensures l.state.NoKey? <==> b.NullKey? || (b.StringKey? && Blank(b.text))
    ensures !l.state.TransientError?
  {
    match b
    case NullKey => Lookup(NoKey, "")
    case StringKey(s) => if Blank(s) then Lookup(NoKey, "") else Lookup(Present, s)
    case _ => Lookup(Unsupported, "")
  }

  function ClassifyLookupFailure(httpStatus: int): Lookup {
    var clientError := 400 <= httpStatus < 500;
    var transientClientError := httpStatus == 408 || httpStatus == 429;
    Lookup(if clientError && !transientClientError then Unsupported else TransientError, "")
  }

  datatype RecoveryAction = UseServerKey | Generate | Fail

  function DecideRecovery(l: Lookup): RecoveryAction {
    match l.state
    case Present => if l.key == "" then Generate else UseServerKey
    case NoKey => Generate
    case Unsupported => Generate
    case TransientError => Fail
  }

  /** The key a client keeps after generating `generated` and reading the account's key back. */
  function Reconcile(generated: string, verification: Lookup): string {
    if verification.state.Present? && verification.key != "" && verification.key != generated
    then verification.key else generated
  }

  // ---- The protocol ----

  datatype Pc = Idle | WillGenerate | Generated(key: string)

  datatype Client = Client(apiKey: string, pc: Pc)

  /** `stored` is the account's key column; null and blank both mean no key. */
  datatype World = World(stored: Option<string>, clients: map<nat, Client>)

  function ListBody(w: World): Body {
    if w.stored.None? then NullKey else StringKey(w.stored.value)
  }

  predicate HasKey(w: World) { w.stored.Some? && !Blank(w.stored.value) }

  /** One server request of one client, with what became of it. */
  datatype Step =
    | LookedUp(client: nat)                                  // the lookup was answered
    | LookupFailed(client: nat, httpStatus: int)
    | GenerateLanded(client: nat, key: string, answered: bool) // the server stored it; the reply may be lost
    | GenerateLost(client: nat)                              // never reached the server
    | Verified(client: nat)
    | VerifyFailed(client: nat)

  /** A server that can report keys fails a lookup only for a passing reason. */
  predicate Enabled(w: World, s: Step) {
    && s.client in w.clients
    && var pc := w.clients[s.client].pc;
       match s
       case LookedUp(_) => pc.Idle?
       case LookupFailed(_, status) => pc.Idle? && ClassifyLookupFailure(status).state.TransientError?
       case GenerateLanded(_, key, _) => pc.WillGenerate? && !Blank(key)
       case GenerateLost(_) => pc.WillGenerate?
       case Verified(_) => pc.Generated?
       case VerifyFailed(_) => pc.Generated?
  }

  function AfterLookup(c: Client, l: Lookup): Client {
    match DecideRecovery(l)
    case UseServerKey => Client(l.key, Idle)
    case Generate => c.(pc := WillGenerate)
    case Fail => c
  }

  function Moved(w: World, s: Step): Client
    requires Enabled(w, s)
  {
    var c := w.clients[s.client];
    match s
    case LookedUp(_) => AfterLookup(c, ParseListResponse(ListBody(w)))
    case LookupFailed(_, status) => AfterLookup(c, ClassifyLookupFailure(status))
    case GenerateLanded(_, key, answered) => if answered then Client(key, Generated(key)) else c.(pc := Idle)
    case GenerateLost(_) => c.(pc := Idle)
    case Verified(_) => Client(Reconcile(c.pc.key, ParseListResponse(ListBody(w))), Idle)
    case VerifyFailed(_) => Client(c.pc.key, Idle)
  }

  function Apply(w: World, s: Step): World
    requires Enabled(w, s)
  {
    World(if s.GenerateLanded? then Some(s.key) else w.stored, w.clients[s.client := Moved(w, s)])
  }

  ghost predicate Runs(w: World, steps: seq<Step>)
    decreases |steps|
  {
    steps == [] || (Enabled(w, steps[0]) && Runs(Apply(w, steps[0]), steps[1..]))
  }

  ghost function End(w: World, steps: seq<Step>): World
    requires Runs(w, steps)
    decreases |steps|
  {
    if steps == [] then w else End(Apply(w, steps[0]), steps[1..])
  }

  ghost predicate Init(w: World) {
    forall c :: c in w.clients ==> w.clients[c].pc.Idle?
  }

  ghost function Pending(w: World): set<nat> {
    set c | c in w.clients && w.clients[c].pc.WillGenerate?
  }

  function Generates(steps: seq<Step>): nat {
    if steps == [] then 0 else (if steps[0].GenerateLanded? then 1 else 0) + Generates(steps[1..])
  }

  /** A key that exists never goes away, and every generated key is one. */
  lemma StepKeepsKey(w: World, s: Step)
    requires Enabled(w, s)
    ensures HasKey(w) ==> HasKey(Apply(w, s))
    ensures !s.GenerateLanded? ==> Apply(w, s).stored == w.stored
    ensures HasKey(w) ==> Pending(Apply(w, s)) <= Pending(w)
    ensures s.GenerateLanded? ==> HasKey(Apply(w, s)) && s.client in Pending(w) && s.client !in Pending(Apply(w, s))
  {
  }

  /**
   Once the account has a key, each client that had already seen it keyless can overwrite it at most
   once, and nobody else can.
   */
  lemma {:induction false} OverwritesAreBounded(w: World, steps: seq<Step>)
    requires HasKey(w) && Runs(w, steps)
    ensures Generates(steps) + |Pending(End(w, steps))| <= |Pending(w)|
    ensures HasKey(End(w, steps))
    decreases |steps|
  {
    if steps != [] {
      var w' := Apply(w, steps[0]);
      StepKeepsKey(w, steps[0]);
      OverwritesAreBounded(w', steps[1..]);
      if steps[0].GenerateLanded? {
        assert Pending(w') <= Pending(w) - {steps[0].client};
        Subset(Pending(w'), Pending(w) - {steps[0].client});
      } else {
        Subset(Pending(w'), Pending(w));
      }
    }
  }

  lemma {:induction false} Subset(a: set<nat>, b: set<nat>)
    requires a <= b
    ensures |a| <= |b|
    decreases |a|
  {
    if a != {} {
      var x :| x in a;
      Subset(a - {x}, b - {x});
    }
  }

  /** With a key, and nobody between a keyless lookup and its generate, the key never changes again. */
  lemma {:induction false} KeyIsStable(w: World, steps: seq<Step>)
    requires HasKey(w) && Pending(w) == {} && Runs(w, steps)
    ensures End(w, steps).stored == w.stored
    decreases |steps|
  {
    if steps != [] {
      StepKeepsKey(w, steps[0]);
      KeyIsStable(Apply(w, steps[0]), steps[1..]);
    }
  }

  /** N clients starting on any account generate at most N keys between them, however long they run. */
  lemma {:induction false} AtMostOneKeyPerClient(w: World, steps: seq<Step>)
    requires Runs(w, steps) && (HasKey(w) ==> Pending(w) == {})
    ensures Generates(steps) <= |w.clients|
    decreases |steps|
  {
    if HasKey(w) {
      OverwritesAreBounded(w, steps);
    } else if steps != [] {
      var w' := Apply(w, steps[0]);
      StepKeepsKey(w, steps[0]);
      assert w'.clients.Keys == w.clients.Keys;
      if steps[0].GenerateLanded? {
        OverwritesAreBounded(w', steps[1..]);
        Subset(Pending(w'), w.clients.Keys - {steps[0].client});
      } else {
        AtMostOneKeyPerClient(w', steps[1..]);
      }
    }
  }

  // ---- Who may generate ----

  ghost function At(w: World, steps: seq<Step>, i: nat): World
    requires Runs(w, steps) && i <= |steps|
    decreases i
  {
    if i == 0 then w else At(Apply(w, steps[0]), steps[1..], i - 1)
  }

  lemma {:induction false} AtNext(w: World, steps: seq<Step>, i: nat)
    requires Runs(w, steps) && i < |steps|
    ensures Enabled(At(w, steps, i), steps[i]) && At(w, steps, i + 1) == Apply(At(w, steps, i), steps[i])
    decreases i
  {
    if i > 0 { AtNext(Apply(w, steps[0]), steps[1..], i - 1); }
  }

  lemma {:induction false} AtEnd(w: World, steps: seq<Step>)
    requires Runs(w, steps)
    ensures At(w, steps, |steps|) == End(w, steps)
    decreases |steps|
  {
    if steps != [] { AtEnd(Apply(w, steps[0]), steps[1..]); }
  }

  /** `c` looked the key up at step j, saw none, and has done nothing since. */
  ghost predicate SawNoneAt(w: World, steps: seq<Step>, i: nat, c: nat, j: nat)
    requires Runs(w, steps) && i <= |steps|
  {
    j < i && steps[j] == LookedUp(c) && !HasKey(At(w, steps, j)) && forall k :: j < k < i ==> steps[k].client != c
  }

  lemma {:induction false} PendingSawNone(w: World, steps: seq<Step>, i: nat, c: nat) returns (j: nat)
    requires Init(w) && Runs(w, steps) && i <= |steps| && c in Pending(At(w, steps, i))
    ensures SawNoneAt(w, steps, i, c, j)
    decreases i
  {
    if i == 0 { assert false; }
    AtNext(w, steps, i - 1);
    if steps[i - 1].client == c {
      j := i - 1;
    } else {
      j := PendingSawNone(w, steps, i - 1, c);
    }
  }

  /** A client generates only when its own latest step was a lookup that saw no key. */
  lemma GeneratesOnlyAfterOwnKeylessLookup(w: World, steps: seq<Step>, i: nat) returns (j: nat)
    requires Init(w) && Runs(w, steps) && i < |steps| && steps[i].GenerateLanded?
    ensures SawNoneAt(w, steps, i, steps[i].client, j)
  {
    AtNext(w, steps, i);
    j := PendingSawNone(w, steps, i, steps[i].client);
  }

  // ---- Agreement ----

  ghost predicate Agrees(w: World, c: nat) {
    c in w.clients && HasKey(w) && w.clients[c].apiKey == w.stored.value
    && (w.clients[c].pc.Generated? ==> w.clients[c].pc.key == w.stored.value)
  }

  lemma {:induction false} AgreementLasts(w: World, steps: seq<Step>, c: nat)
    requires Agrees(w, c) && Runs(w, steps) && Generates(steps) == 0
    ensures Agrees(End(w, steps), c)
    decreases |steps|
  {
    if steps != [] {
      StepKeepsKey(w, steps[0]);
      AgreementLasts(Apply(w, steps[0]), steps[1..], c);
    }
  }

  lemma {:induction false} GeneratedMeansKey(w: World, steps: seq<Step>, i: nat, c: nat)
    requires Init(w) && Runs(w, steps) && i <= |steps|
    requires c in At(w, steps, i).clients && At(w, steps, i).clients[c].pc.Generated?
    ensures HasKey(At(w, steps, i))
    decreases i
  {
    if i > 0 {
      AtNext(w, steps, i - 1);
      StepKeepsKey(At(w, steps, i - 1), steps[i - 1]);
      if steps[i - 1].client != c || !steps[i - 1].GenerateLanded? {
        GeneratedMeansKey(w, steps, i - 1, c);
      }
    }
  }

  lemma {:induction false} RunsSuffix(w: World, steps: seq<Step>, i: nat)
    requires Runs(w, steps) && i <= |steps|
    ensures Runs(At(w, steps, i), steps[i..]) && End(At(w, steps, i), steps[i..]) == End(w, steps)
    decreases i
  {
    if i == 0 {
      assert steps[0..] == steps;
    } else {
      RunsSuffix(Apply(w, steps[0]), steps[1..], i - 1);
      assert steps[1..][i - 1..] == steps[i..];
    }
  }

  /**
   Every client whose verification read succeeded, or whose lookup found a key, after the last
   generate holds the account's key at the end.
   */
  lemma ReadersAgreeAfterLastGenerate(w: World, steps: seq<Step>, i: nat)
    requires Init(w) && Runs(w, steps) && i < |steps|
    requires steps[i].Verified? || (steps[i].LookedUp? && HasKey(At(w, steps, i)))
    requires Generates(steps[i + 1..]) == 0
    ensures Agrees(End(w, steps), steps[i].client)
  {
    AtNext(w, steps, i);
    if steps[i].Verified? { GeneratedMeansKey(w, steps, i, steps[i].client); }
    RunsSuffix(w, steps, i + 1);
    AgreementLasts(At(w, steps, i + 1), steps[i + 1..], steps[i].client);
  }

  // ---- Exactly who ends with the account's key ----

  /** The step gives its client a key: a lookup that found one, its own generate answered, or a verification read. */
  predicate SetsKey(w: World, s: Step) {
    (s.LookedUp? && HasKey(w)) || (s.GenerateLanded? && s.answered) || s.Verified?
  }

  /** No step of the run gives `c` a key. */
  ghost predicate Untouched(w: World, steps: seq<Step>, c: nat)
    requires Runs(w, steps)
    decreases |steps|
  {
    steps == [] ||
    (!(steps[0].client == c && SetsKey(w, steps[0])) && Untouched(Apply(w, steps[0]), steps[1..], c))
  }

  /** A server that never hands out a key twice: what lands differs from every key stored before it. */
  ghost predicate NewKeysOnly(w: World, steps: seq<Step>)
    requires Runs(w, steps)
    decreases |steps|
  {
    && (forall i :: 0 <= i < |steps| && steps[i].GenerateLanded? ==> w.stored != Some(steps[i].key))
    && (steps != [] ==> NewKeysOnly(Apply(w, steps[0]), steps[1..]))
  }

  /** A client between its generate and its verification already uses the generated key. */
  ghost predicate Consistent(w: World) {
    forall c :: c in w.clients && w.clients[c].pc.Generated? ==> w.clients[c].apiKey == w.clients[c].pc.key && HasKey(w)
  }

  lemma StepKeepsConsistent(w: World, s: Step)
    requires Consistent(w) && Enabled(w, s)
    ensures Consistent(Apply(w, s))
  {
    StepKeepsKey(w, s);
  }

  lemma {:induction false} ConsistentAt(w: World, steps: seq<Step>, i: nat)
    requires Init(w) && Runs(w, steps) && i <= |steps|
    ensures Consistent(At(w, steps, i))
    decreases i
  {
    if i > 0 {
      ConsistentAt(w, steps, i - 1);
      AtNext(w, steps, i - 1);
      StepKeepsConsistent(At(w, steps, i - 1), steps[i - 1]);
    }
  }

  /** The step that gives a client a key gives it the one the account then has. */
  lemma SetKeyIsStored(w: World, s: Step)
    requires Consistent(w) && Enabled(w, s) && SetsKey(w, s)
    ensures Apply(w, s).stored.Some? && Apply(w, s).clients[s.client].apiKey == Apply(w, s).stored.value
  {
  }

  lemma {:induction false} UntouchedKeepsKey(w: World, steps: seq<Step>, c: nat)
    requires Consistent(w) && Runs(w, steps) && c in w.clients && Untouched(w, steps, c)
    ensures c in End(w, steps).clients && End(w, steps).clients[c].apiKey == w.clients[c].apiKey
    decreases |steps|
  {
    if steps != [] {
      StepKeepsConsistent(w, steps[0]);
      UntouchedKeepsKey(Apply(w, steps[0]), steps[1..], c);
    }
  }

  /** With new keys only, the account's key is still the same exactly when nothing landed. */
  lemma {:induction false} StoredUnlessLanded(w: World, steps: seq<Step>)
    requires Runs(w, steps)
    ensures Generates(steps) == 0 ==> End(w, steps).stored == w.stored
    ensures Generates(steps) > 0 ==>
              exists i :: 0 <= i < |steps| && steps[i].GenerateLanded? && End(w, steps).stored == Some(steps[i].key)
    decreases |steps|
  {
    if steps != [] {
      StoredUnlessLanded(Apply(w, steps[0]), steps[1..]);
      if Generates(steps[1..]) > 0 {
        var i :| 0 <= i < |steps[1..]| && steps[1..][i].GenerateLanded?
                 && End(w, steps).stored == Some(steps[1..][i].key);
        assert steps[i + 1] == steps[1..][i];
      } else if steps[0].GenerateLanded? {
        assert End(w, steps).stored == Some(steps[0].key);
      }
    }
  }

  lemma {:induction false} NewKeysAfter(w: World, steps: seq<Step>, i: nat)
    requires Runs(w, steps) && i <= |steps| && NewKeysOnly(w, steps)
    ensures Runs(At(w, steps, i), steps[i..]) && NewKeysOnly(At(w, steps, i), steps[i..])
    decreases i
  {
    if i == 0 {
      assert steps[0..] == steps;
    } else {
      NewKeysAfter(Apply(w, steps[0]), steps[1..], i - 1);
      assert steps[1..][i - 1..] == steps[i..];
    }
  }

  /**
   A client ends with the account's key if and only if no generate landed after the last step that gave it a key. A
   failed verification is harmless unless somebody else's generate landed behind the client's own.
   */
  lemma HoldsTheKeyIff(w: World, steps: seq<Step>, i: nat)
    requires Init(w) && Runs(w, steps) && NewKeysOnly(w, steps) && i < |steps|
    requires SetsKey(At(w, steps, i), steps[i])
    requires Runs(At(w, steps, i + 1), steps[i + 1..])
    requires Untouched(At(w, steps, i + 1), steps[i + 1..], steps[i].client)
    ensures var end, c := End(w, steps), steps[i].client;
            && c in end.clients && end.stored.Some?
            && (end.clients[c].apiKey == end.stored.value <==> Generates(steps[i + 1..]) == 0)
  {
    var c, rest := steps[i].client, steps[i + 1..];
    AtNext(w, steps, i);
    ConsistentAt(w, steps, i);
    ConsistentAt(w, steps, i + 1);
    SetKeyIsStored(At(w, steps, i), steps[i]);
    RunsSuffix(w, steps, i + 1);
    NewKeysAfter(w, steps, i + 1);
    UntouchedKeepsKey(At(w, steps, i + 1), rest, c);
    StoredUnlessLanded(At(w, steps, i + 1), rest);
  }

  /** The other side of it at one run: two racing clients, and a failed verification leaves one with a dead key. */
  lemma FailedVerificationKeepsADeadKey(w: World, k0: string, k1: string)
    requires Init(w) && !HasKey(w) && 0 in w.clients && 1 in w.clients
    requires !Blank(k0) && !Blank(k1) && k0 != k1
    ensures var steps := [LookedUp(0), LookedUp(1), GenerateLanded(0, k0, true), GenerateLanded(1, k1, true),
                          VerifyFailed(0)];
            Runs(w, steps) && End(w, steps).stored == Some(k1) &&
            0 in End(w, steps).clients && End(w, steps).clients[0].apiKey == k0
  {
    var s0, s1, s2, s3, s4 :=
      LookedUp(0), LookedUp(1), GenerateLanded(0, k0, true), GenerateLanded(1, k1, true), VerifyFailed(0);
    var w1 := Apply(w, s0);
    var w2 := Apply(w1, s1);
    var w3 := Apply(w2, s2);
    var w4 := Apply(w3, s3);
    var w5 := Apply(w4, s4);
    assert Runs(w5, []) && End(w5, []) == w5;
    assert [s4][1..] == [] && Runs(w4, [s4]) && End(w4, [s4]) == w5;
    assert [s3, s4][1..] == [s4] && Runs(w3, [s3, s4]) && End(w3, [s3, s4]) == w5;
    assert [s2, s3, s4][1..] == [s3, s4] && Runs(w2, [s2, s3, s4]) && End(w2, [s2, s3, s4]) == w5;
    assert [s1, s2, s3, s4][1..] == [s2, s3, s4] && Runs(w1, [s1, s2, s3, s4]) && End(w1, [s1, s2, s3, s4]) == w5;
    assert [s0, s1, s2, s3, s4][1..] == [s1, s2, s3, s4];
  }

  // ---- What a lookup leads to ----

  /** An answered lookup: a key that is not blank is taken, with nothing generated; no key, a blank one, or an answer
      without one leads to a generate. */
  lemma AnsweredLookupLeads(c: Client, b: Body)
    ensures var after, found := AfterLookup(c, ParseListResponse(b)), b.StringKey? && !Blank(b.text);
            && (found ==> after == Client(b.text, Idle))
            && (!found ==> after == Client(c.apiKey, WillGenerate))
  {
  }

  /** A failed lookup: a refusal that will not pass (a 4xx other than 408 and 429) leads to a generate, anything else to
      another try later. */
  lemma FailedLookupLeads(c: Client, status: int)
    ensures AfterLookup(c, ClassifyLookupFailure(status)) ==
            if 400 <= status <= 499 && status != 408 && status != 429 then Client(c.apiKey, WillGenerate) else c
  {
  }

  /** A client that finds an account with a key uses that key from its first answered lookup on; one that finds none
      has generated one and holds what the account holds after three answered requests nobody disturbs. */
  lemma UndisturbedClientGetsTheKey(w: World, c: nat, key: string)
    requires c in w.clients && w.clients[c].pc.Idle? && !Blank(key)
    ensures HasKey(w) ==>
              && Runs(w, [LookedUp(c)]) && End(w, [LookedUp(c)]).stored == w.stored
              && End(w, [LookedUp(c)]).clients == w.clients[c := Client(w.stored.value, Idle)]
    ensures !HasKey(w) ==>
              var steps := [LookedUp(c), GenerateLanded(c, key, true), Verified(c)];
              && Runs(w, steps) && End(w, steps).stored == Some(key)
              && End(w, steps).clients == w.clients[c := Client(key, Idle)]
  {
    var w1 := Apply(w, LookedUp(c));
    if HasKey(w) {
      assert [LookedUp(c)][1..] == [] && Runs(w1, []) && End(w1, []) == w1;
    } else {
      var w2 := Apply(w1, GenerateLanded(c, key, true));
      var w3 := Apply(w2, Verified(c));
      var last := [Verified(c)];
      assert last[1..] == [] && Runs(w3, []) && Runs(w2, last) && End(w2, last) == End(w3, []) == w3;
      var two := [GenerateLanded(c, key, true), Verified(c)];
      assert two[1..] == last && Runs(w1, two) && End(w1, two) == w3;
      assert [LookedUp(c), GenerateLanded(c, key, true), Verified(c)][1..] == two;
      assert w3.clients == w.clients[c := Client(key, Idle)];
    }
  }
}
