/** The replicated bank: the state machine that executes committed commands, with the 64-bit arithmetic of
    its balances, and the effect of executing a branch in order while skipping repeated command IDs. */
module HotStuffBank {
  import opened HotStuffTree

  const MAX: int := 0x7fff_ffff_ffff_ffff
  const INITIAL_MONEY: int := 1300

  datatype Bank = Bank(balances: map<string, int64>, blocked: set<string>, loans: map<string, int64>)

  const NEW_BANK: Bank := Bank(map["Marko" := 1000, "Ana" := 200, "Luka" := 100], {}, map[])

  /** Two's-complement wrap-around. */
  function Wrap(x: int): int64 {
    (x + 0x8000_0000_0000_0000) % 0x1_0000_0000_0000_0000 - 0x8000_0000_0000_0000
  }

  /** A missing account reads as zero. */
  function Balance(balances: map<string, int64>, account: string): int64 {
    if account in balances then balances[account] else 0
  }

  predicate Accepts(b: Bank, cmd: Command) {
    cmd.id != "" &&
    match cmd.kind
    case Transfer =>
      cmd.from !in b.blocked && cmd.amount > 0 && cmd.from != "" && cmd.to != "" && Balance(b.balances, cmd.from) >= cmd.amount
    case BlockAccount => cmd.from != ""
    case ApproveLoan =>
      cmd.from !in b.blocked && cmd.from != "" && cmd.metadata != "" && cmd.amount > 0 && cmd.metadata !in b.loans
    case Unknown(_) => false
  }

  function Executed(b: Bank, cmd: Command): Bank {
    if !Accepts(b, cmd) then b
    else match cmd.kind
      case Transfer =>
        var debited := b.balances[cmd.from := Wrap(Balance(b.balances, cmd.from) - cmd.amount)];
        b.(balances := debited[cmd.to := Wrap(Balance(debited, cmd.to) + cmd.amount)])
      case BlockAccount => b.(blocked := b.blocked + {cmd.from})
      case ApproveLoan =>
        b.(loans := b.loans[cmd.metadata := cmd.amount],
           balances := b.balances[cmd.from := Wrap(Balance(b.balances, cmd.from) + cmd.amount)])
      case Unknown(_) => b
  }

  class StateMachine {
    var balances: map<string, int64>
    var blocked: set<string>
    var approvedLoans: map<string, int64>

    function View(): Bank
      reads this
    {
      Bank(balances, blocked, approvedLoans)
    }

    constructor ()
      ensures View() == NEW_BANK
    {
      balances := map["Marko" := 1000, "Ana" := 200, "Luka" := 100];
      blocked := {};
      approvedLoans := map[];
    }

    method Execute(cmd: Command) returns (ok: bool)
      modifies this
      ensures ok == Accepts(old(View()), cmd)
      ensures View() == Executed(old(View()), cmd)
    {
      ok := false;
      if cmd.id == "" {
        return;
      }
      match cmd.kind {
        case Transfer =>
          if cmd.from in blocked { return; }
          if cmd.amount <= 0 || cmd.from == "" || cmd.to == "" { return; }
          if Balance(balances, cmd.from) >= cmd.amount {
            balances := balances[cmd.from := Wrap(Balance(balances, cmd.from) - cmd.amount)];
            balances := balances[cmd.to := Wrap(Balance(balances, cmd.to) + cmd.amount)];
            ok := true;
          }
        case BlockAccount =>
          if cmd.from == "" { return; }
          blocked := blocked + {cmd.from};
          ok := true;
        case ApproveLoan =>
          if cmd.from in blocked { return; }
          if cmd.from == "" || cmd.metadata == "" || cmd.amount <= 0 { return; }
          if cmd.metadata in approvedLoans { return; }
          approvedLoans := approvedLoans[cmd.metadata := cmd.amount];
          balances := balances[cmd.from := Wrap(Balance(balances, cmd.from) + cmd.amount)];
          ok := true;
        case Unknown(_) =>
      }
    }
  }

  // ---------- money ----------

  ghost function Sum(m: map<string, int64>): int {
    if m == map[] then 0
    else
      var k :| k in m;
      m[k] + Sum(m - {k})
  }

  lemma {:induction false} SumWithout(m: map<string, int64>, k: string)
    requires k in m
    ensures Sum(m) == m[k] + Sum(m - {k})
    decreases |m|
  {
    var first :| first in m && Sum(m) == m[first] + Sum(m - {first});
    if first != k {
      SumWithout(m - {first}, k);
      SumWithout(m - {k}, first);
      assert (m - {first}) - {k} == (m - {k}) - {first};
    }
  }

  lemma SumUpdate(m: map<string, int64>, k: string, v: int64)
    ensures Sum(m[k := v]) == Sum(m) - Balance(m, k) + v
  {
    SumWithout(m[k := v], k);
    if k in m {
      SumWithout(m, k);
      assert m[k := v] - {k} == m - {k};
    } else {
      assert m[k := v] - {k} == m;
    }
  }

  lemma {:induction false} SumBoundsBalance(m: map<string, int64>, k: string)
    requires forall a :: a in m ==> m[a] >= 0
    ensures 0 <= Balance(m, k) <= Sum(m)
    decreases |m|
  {
    if k in m {
      SumWithout(m, k);
      SumIsNonNegative(m - {k});
    } else {
      SumIsNonNegative(m);
    }
  }

  lemma {:induction false} SumIsNonNegative(m: map<string, int64>)
    requires forall a :: a in m ==> m[a] >= 0
    ensures Sum(m) >= 0
    decreases |m|
  {
    if m != map[] {
      var k :| k in m;
      SumWithout(m, k);
      SumIsNonNegative(m - {k});
    }
  }

  /** No account is overdrawn, and the accounts hold exactly the initial money and the approved loans. */
  ghost predicate Sound(b: Bank) {
    && (forall a :: a in b.balances ==> b.balances[a] >= 0)
    && Sum(b.balances) == INITIAL_MONEY + Sum(b.loans)
  }

  /** The account that an accepted command credits cannot hold the amount. */
  predicate Overflows(b: Bank, cmd: Command) {
    Accepts(b, cmd) &&
    match cmd.kind
    case Transfer => cmd.from != cmd.to && Balance(b.balances, cmd.to) + cmd.amount > MAX
    case BlockAccount => false
    case ApproveLoan => Balance(b.balances, cmd.from) + cmd.amount > MAX
    case Unknown(_) => false
  }

  lemma CreditOverflows(balances: map<string, int64>, account: string, amount: int64)
    requires amount > 0 && Balance(balances, account) >= 0
    ensures var x := Balance(balances, account) + amount;
            if x > MAX then Wrap(x) < 0 else Wrap(x) == x
  {
  }

  lemma LoanSoundness(b: Bank, cmd: Command)
    requires Sound(b) && Accepts(b, cmd) && cmd.kind == ApproveLoan
    ensures Sound(Executed(b, cmd)) <==> !Overflows(b, cmd)
  {
    var b' := Executed(b, cmd);
    CreditOverflows(b.balances, cmd.from, cmd.amount);
    SumUpdate(b.balances, cmd.from, b'.balances[cmd.from]);
    SumUpdate(b.loans, cmd.metadata, cmd.amount);
  }

  lemma TransferSoundness(b: Bank, cmd: Command)
    requires Sound(b) && Accepts(b, cmd) && cmd.kind == Transfer
    ensures Sound(Executed(b, cmd)) <==> !Overflows(b, cmd)
  {
    var b' := Executed(b, cmd);
    var left: int64 := Balance(b.balances, cmd.from) - cmd.amount;
    var debited := b.balances[cmd.from := left];
    assert Wrap(left) == left;
    CreditOverflows(debited, cmd.to, cmd.amount);
    SumUpdate(b.balances, cmd.from, left);
    SumUpdate(debited, cmd.to, b'.balances[cmd.to]);
  }

  /** Money is conserved and no balance turns negative exactly when the credited account does not overflow. */
  lemma SoundExactlyWithoutOverflow(b: Bank, cmd: Command)
    requires Sound(b)
    ensures Sound(Executed(b, cmd)) <==> !Overflows(b, cmd)
  {
    if Accepts(b, cmd) {
      match cmd.kind {
        case Transfer => TransferSoundness(b, cmd);
        case ApproveLoan => LoanSoundness(b, cmd);
        case _ =>
      }
    }
  }

  /** The bank after executing `cmds` in order. */
  function After(cmds: seq<Command>): Bank {
    if cmds == [] then NEW_BANK else Executed(After(cmds[..|cmds| - 1]), cmds[|cmds| - 1])
  }

  lemma NewBankSound()
    ensures Sound(NEW_BANK)
  {
    var m: map<string, int64> := map[];
    assert Sum(m) == 0;
    SumUpdate(m, "Marko", 1000);
    SumUpdate(m["Marko" := 1000], "Ana", 200);
    SumUpdate(m["Marko" := 1000]["Ana" := 200], "Luka", 100);
    assert m["Marko" := 1000]["Ana" := 200]["Luka" := 100] == NEW_BANK.balances;
  }

  ghost predicate SoundThroughout(cmds: seq<Command>) {
    forall i :: 0 <= i <= |cmds| ==> Sound(After(cmds[..i]))
  }

  ghost predicate OverflowFree(cmds: seq<Command>) {
    forall i :: 0 <= i < |cmds| ==> !Overflows(After(cmds[..i]), cmds[i])
  }

  lemma AfterOne(cmds: seq<Command>, i: nat)
    requires i < |cmds|
    ensures After(cmds[..i + 1]) == Executed(After(cmds[..i]), cmds[i])
  {
    assert cmds[..i + 1][..i] == cmds[..i];
  }

  lemma {:induction false} OverflowFreeStaysSound(cmds: seq<Command>, i: nat)
    requires OverflowFree(cmds) && i <= |cmds|
    ensures Sound(After(cmds[..i]))
  {
    if i == 0 {
      NewBankSound();
    } else {
      OverflowFreeStaysSound(cmds, i - 1);
      AfterOne(cmds, i - 1);
      SoundExactlyWithoutOverflow(After(cmds[..i - 1]), cmds[i - 1]);
    }
  }

  /** Over a whole history: the bank is sound at every point exactly when no command overflowed an account. */
  lemma HistorySoundExactlyWithoutOverflow(cmds: seq<Command>)
    ensures SoundThroughout(cmds) <==> OverflowFree(cmds)
  {
    if OverflowFree(cmds) {
      forall i | 0 <= i <= |cmds| ensures Sound(After(cmds[..i])) {
        OverflowFreeStaysSound(cmds, i);
      }
    } else {
      var i :| 0 <= i < |cmds| && Overflows(After(cmds[..i]), cmds[i]);
      AfterOne(cmds, i);
      if Sound(After(cmds[..i])) {
        SoundExactlyWithoutOverflow(After(cmds[..i]), cmds[i]);
        assert !Sound(After(cmds[..i + 1]));
      }
    }
  }

  /** A loan of the largest amount to an account with money makes its balance negative. */
  lemma LargeLoanOverflows()
    ensures var cmd := Command("1", ApproveLoan, "Marko", "", MAX, "first loan");
            && Overflows(NEW_BANK, cmd) && !Sound(After([cmd])) && Balance(After([cmd]).balances, "Marko") == 1000 - MAX - 2
  {
    var cmd := Command("1", ApproveLoan, "Marko", "", MAX, "first loan");
    NewBankSound();
    assert [cmd][..0] == [];
    assert After([cmd]) == Executed(NEW_BANK, cmd);
    SoundExactlyWithoutOverflow(NEW_BANK, cmd);
    assert "Marko" in NEW_BANK.balances && NEW_BANK.balances["Marko"] == 1000;
  }

  /** The money that the loan commands ask for. */
  function Requested(cmds: seq<Command>): int {
    if cmds == [] then 0
    else
      var cmd := cmds[|cmds| - 1];
      Requested(cmds[..|cmds| - 1]) + if cmd.kind == ApproveLoan && cmd.amount > 0 then cmd.amount as int else 0
  }

  /** Loans that fit the 64-bit range as a whole never overflow an account. */
  lemma {:induction false} ModestLoansKeepSound(cmds: seq<Command>)
    requires INITIAL_MONEY + Requested(cmds) <= MAX
    ensures Sound(After(cmds)) && Sum(After(cmds).loans) <= Requested(cmds)
  {
    NewBankSound();
    if cmds != [] {
      var last := |cmds| - 1;
      var b, cmd := After(cmds[..last]), cmds[last];
      ModestLoansKeepSound(cmds[..last]);
      SumBoundsBalance(b.balances, cmd.to);
      SumBoundsBalance(b.balances, cmd.from);
      if Accepts(b, cmd) && cmd.kind == Transfer && cmd.from != cmd.to {
        TwoBalancesFit(b.balances, cmd.from, cmd.to);
      }
      SumUpdate(b.loans, cmd.metadata, cmd.amount);
      SoundExactlyWithoutOverflow(b, cmd);
    }
  }

  lemma TwoBalancesFit(m: map<string, int64>, a: string, b: string)
    requires a != b && forall k :: k in m ==> m[k] >= 0
    ensures Balance(m, a) + Balance(m, b) <= Sum(m)
  {
    if a in m {
      SumWithout(m, a);
      SumBoundsBalance(m - {a}, b);
    } else {
      SumBoundsBalance(m, b);
    }
  }

  // ---------- executing a branch ----------

  /** A bank together with the IDs of the commands it has seen. */
  datatype Ledger = Ledger(bank: Bank, seen: set<string>)

  function Applied(l: Ledger, cmd: Command): Ledger {
    if cmd.id in l.seen then l else Ledger(Executed(l.bank, cmd), l.seen + {cmd.id})
  }

  function AppliedAll(l: Ledger, cmds: seq<Command>): Ledger {
    if cmds == [] then l else Applied(AppliedAll(l, cmds[..|cmds| - 1]), cmds[|cmds| - 1])
  }

  function Ids(cmds: seq<Command>): set<string> {
    set cmd | cmd in cmds :: cmd.id
  }

  /** The commands of `cmds` without the later repetitions of an ID. */
  function FirstOccurrences(cmds: seq<Command>): seq<Command> {
    if cmds == [] then []
    else
      var init, cmd := cmds[..|cmds| - 1], cmds[|cmds| - 1];
      FirstOccurrences(init) + if cmd.id in Ids(init) then [] else [cmd]
  }

  lemma IdsOfLonger(cmds: seq<Command>, cmd: Command)
    ensures Ids(cmds + [cmd]) == Ids(cmds) + {cmd.id}
  {
  }

  lemma AfterLonger(cmds: seq<Command>, cmd: Command)
    ensures After(cmds + [cmd]) == Executed(After(cmds), cmd)
  {
    assert (cmds + [cmd])[..|cmds|] == cmds;
  }

  /** Executing step by step is the fold of the bank over the first occurrences. */
  lemma {:induction false} ApplyingIsFolding(cmds: seq<Command>)
    ensures AppliedAll(Ledger(After([]), {}), cmds) == Ledger(After(FirstOccurrences(cmds)), Ids(cmds))
  {
    if cmds == [] {
      assert Ids(cmds) == {};
    } else {
      var init, cmd := cmds[..|cmds| - 1], cmds[|cmds| - 1];
      ApplyingIsFolding(init);
      assert cmds == init + [cmd];
      IdsOfLonger(init, cmd);
      AfterLonger(FirstOccurrences(init), cmd);
      if cmd.id in Ids(init) {
        assert FirstOccurrences(cmds) == FirstOccurrences(init);
      }
    }
  }

  lemma {:induction false} FirstOccurrencesHaveDistinctIds(cmds: seq<Command>)
    ensures Ids(FirstOccurrences(cmds)) == Ids(cmds)
    ensures var f := FirstOccurrences(cmds); forall i, j :: 0 <= i < j < |f| ==> f[i].id != f[j].id
  {
    if cmds != [] {
      var init, cmd := cmds[..|cmds| - 1], cmds[|cmds| - 1];
      FirstOccurrencesHaveDistinctIds(init);
      assert cmds == init + [cmd];
      assert Ids(cmds) == Ids(init) + {cmd.id};
      var firsts := FirstOccurrences(init);
      assert Ids(firsts + [cmd]) == Ids(firsts) + {cmd.id};
      assert forall i :: 0 <= i < |firsts| ==> firsts[i].id in Ids(firsts);
    }
  }

  lemma {:induction false} AppliedAllSplit(l: Ledger, a: seq<Command>, b: seq<Command>)
    ensures AppliedAll(l, a + b) == AppliedAll(AppliedAll(l, a), b)
  {
    if b == [] {
      assert a + b == a;
    } else {
      AppliedAllSplit(l, a, b[..|b| - 1]);
      assert (a + b)[..|a + b| - 1] == a + b[..|b| - 1];
    }
  }
}
