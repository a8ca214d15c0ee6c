/**
 * The `.env` update in setup.py: every line that sets `WALLET_ADDRESS=` is
 * replaced by one carrying the address the user typed; nothing is written
 * when the answer is empty.  Reading and writing the file are not part of
 * this model: the file enters and leaves as its list of lines.
 */
module EnvSetup {

  import opened Wrappers
  import opened Strings

  const WalletKey: string := "WALLET_ADDRESS="

  /** The line that sets the wallet address, with its line break. */
  function WalletLine(walletAddress: string): (line: string)
    ensures StartsWith(line, WalletKey)
  {
    WalletKey + walletAddress + "\n"
  }

  /** The file's lines after the update. */
  function RewrittenLines(envLines: seq<string>, walletAddress: string): (lines: seq<string>)
    ensures |lines| == |envLines|
  {
    seq(|envLines|, i requires 0 <= i < |envLines| =>
      if StartsWith(envLines[i], WalletKey) then WalletLine(walletAddress) else envLines[i])
  }

  /**
   * Line by line: a line that sets the wallet address becomes the new one,
   * every other line is kept where it was.
   */
  lemma RewrittenLinesByLine(envLines: seq<string>, walletAddress: string, i: int)
    requires 0 <= i < |envLines|
    ensures StartsWith(envLines[i], WalletKey) ==> RewrittenLines(envLines, walletAddress)[i] == WalletLine(walletAddress)
    ensures !StartsWith(envLines[i], WalletKey) ==> RewrittenLines(envLines, walletAddress)[i] == envLines[i]
  {
  }

  /** A file with no wallet line is left exactly as it was: no line is appended. */
  lemma NoWalletLineUnchanged(envLines: seq<string>, walletAddress: string)
    requires forall i :: 0 <= i < |envLines| ==> !StartsWith(envLines[i], WalletKey)
    ensures RewrittenLines(envLines, walletAddress) == envLines
  {
  }

  /** Running the update twice with the same address changes nothing the second time. */
  lemma RewriteIdempotent(envLines: seq<string>, walletAddress: string)
    ensures RewrittenLines(RewrittenLines(envLines, walletAddress), walletAddress)
         == RewrittenLines(envLines, walletAddress)
  {
  }

  /**
   * The update step of setup.py: with an empty answer nothing is written;
   * otherwise the lines are rewritten one by one into a new list.
   */
  method UpdateEnv(envLines: seq<string>, walletAddress: string) returns (written: Option<seq<string>>)
    ensures written.None? <==> walletAddress == ""
    ensures written.Some? ==> written.value == RewrittenLines(envLines, walletAddress)
  {
    if walletAddress == "" {
      return None;
    }
    var newLines: seq<string> := [];
    var i := 0;
    while i < |envLines|
      invariant 0 <= i <= |envLines|
      invariant newLines == RewrittenLines(envLines[..i], walletAddress)
    {
      if StartsWith(envLines[i], WalletKey) {
        newLines := newLines + [WalletLine(walletAddress)];
      } else {
        newLines := newLines + [envLines[i]];
      }
      assert envLines[..i + 1] == envLines[..i] + [envLines[i]];
      i := i + 1;
    }
    assert envLines[..i] == envLines;
    written := Some(newLines);
  }
}
