/** The keeper's activation transaction against the program: `openFundActivate` of keeper/distributor/client.ts. */
module Funding {
  import opened Terms
  import opened Fees
  import opened Distributor
  import EngineRuns
  import GrossUp

  /** The fee the keeper reads for a mint: none is a fee of nothing. */
  function FeeOfMint(c: Chain, mint: Key): FeeConfig {
    if mint in c.fees && c.fees[mint].bps <= ONE_IN_BPS then c.fees[mint] else FeeConfig(0, 0)
  }

  lemma {:induction false} SameFee(c: Chain, mint: Key, amount: nat)
    ensures FeeOf(c, mint, amount) == Fee(FeeOfMint(c, mint), amount)
  {
  }

  /** What is sent for an asset whose vault holds `balance` already. */
  function Sent(c: Chain, key: Key, vault: Key): nat
    requires key in c.assets && vault in c.tokens
  {
    EngineRuns.ToTransfer(FeeOfMint(c, c.assets[key].mint), c.assets[key].allocation, c.tokens[vault].amount)
  }

  /** The transfer is left out when nothing is missing. */
  function Fund(c: Chain, source: Key, vault: Key, sent: u64): Result<Chain> {
    if sent > 0 then Transfer(c, source, vault, sent) else Ok(c)
  }

  /** An opened, pending asset of a live round and its own vault. */
  ghost predicate Activatable(c: Chain, round: Key, key: Key, vault: Key) {
    round in c.rounds && key in c.assets
    && var a := c.assets[key];
       a.round == round && c.now < c.rounds[round].expiryTs && a.status == Pending && vault == a.vault
       && Holds(c, vault, a.tokenProgram) && c.tokens[vault].mint == a.mint
  }

  /** The program activates what the keeper has just funded if and only if nothing was missing from the vault or the
      gross-up reaches what was: otherwise the transaction fails as underfunded, and again whenever it is retried. */
  lemma {:induction false} FundingActivates(c: Chain, source: Key, round: Key, key: Key, vault: Key)
    requires Activatable(c, round, key, vault) && Sent(c, key, vault) <= U64_MAX
    requires Fund(c, source, vault, Sent(c, key, vault)).Ok?
    ensures var a := c.assets[key]; var missing := a.allocation - c.tokens[vault].amount;
      var outcome := Activate(Fund(c, source, vault, Sent(c, key, vault)).value, round, key, vault);
      if missing <= 0 || GrossUp.Reaches(FeeOfMint(c, a.mint), missing) then outcome.Ok?
        else outcome == Err(Underfunded)
  {
    hide GrossUp.Reaches, EngineRuns.ToTransfer, FeeOf, Fee, FeeOfMint;
    var a, sent := c.assets[key], Sent(c, key, vault);
    FeeIsValid(c, a.mint);
    SameFee(c, a.mint, sent);
    EngineRuns.TransferFunds(FeeOfMint(c, a.mint), a.allocation, c.tokens[vault].amount);
    NothingFree(c, a.mint);
  }

  lemma {:induction false} FeeIsValid(c: Chain, mint: Key)
    ensures ValidFee(FeeOfMint(c, mint))
  {
  }

  lemma {:induction false} NothingFree(c: Chain, mint: Key)
    ensures Fee(FeeOfMint(c, mint), 0) == 0
  {
    FeeIsValid(c, mint);
    FeeAtMostAmount(FeeOfMint(c, mint), 0);
  }
}
