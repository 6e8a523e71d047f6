/**
 * A worked example of the statement parser: a one-block excerpt in the layout of a
 * PhonePe export, traced through line splitting, the amount parse and the scanner.
 */
module PdfParserExample {
  import opened Wrappers
  import opened Text
  import opened PdfParser

  /** The lines of a one-block statement excerpt. */
  const EXAMPLE_LINES: seq<string> :=
    ["Feb 21, 2026", "UPI", "DEBIT", "₹250.00", "Paid to", "Coffee House", "Transaction ID 123"]

  /** The excerpt's text: its lines separated by newlines. */
  function ExampleText(): string {
    Join(EXAMPLE_LINES, "\n")
  }

  /** Each line of the excerpt is its own strip. */
  lemma ExampleLinesStripped()
    ensures forall k :: 0 <= k < |EXAMPLE_LINES| ==> EXAMPLE_LINES[k] != "" && Strip(EXAMPLE_LINES[k]) == EXAMPLE_LINES[k]
  {
    var raw := EXAMPLE_LINES;
    StripUnchanged(raw[0]); StripUnchanged(raw[1]); StripUnchanged(raw[2]); StripUnchanged(raw[3]);
    StripUnchanged(raw[4]); StripUnchanged(raw[5]); StripUnchanged(raw[6]);
  }

  /** None of the example lines is blank or padded, so all seven come back from `Lines`. */
  lemma ExampleLines()
    ensures Lines(ExampleText()) == EXAMPLE_LINES
  {
    var raw := EXAMPLE_LINES;
    forall k | 0 <= k < |raw| ensures '\n' !in raw[k] {
    }
    JoinSplit(raw, '\n');
    ExampleLinesStripped();
    NonBlankLinesKeepsStripped(raw);
  }

  /** `float("250.00")` is 250. */
  lemma ExampleFloat()
    ensures ParseFloat("250.00") == Some(250.0)
  {
    assert IndexOf("250.00", '.') == 3;
    assert "250.00"[..3] == "250" && "250.00"[4..] == "00";
    assert DigitsValue("250") == 250 by {
      assert "2"[..0] == "";
      assert "25"[..1] == "2";
      assert "250"[..2] == "25";
    }
    assert DigitsValue("00") == 0 by {
      assert "0"[..0] == "";
      assert "00"[..1] == "0";
    }
  }

  /** The whole of "250.00" is one numeric run. */
  lemma ExampleRun()
    ensures LeadingRun("250.00") == "250.00"
  {
    assert "250.00"[1..] == "50.00" && "50.00"[1..] == "0.00" && "0.00"[1..] == ".00";
    assert ".00"[1..] == "00" && "00"[1..] == "0" && "0"[1..] == "";
  }

  /** "250.00" has no comma to remove. */
  lemma ExampleNoComma()
    ensures RemoveAll("250.00", ",") == "250.00"
  {
    RemoveAllAbsent("250.00", ",") by {
      forall k | 0 <= k <= 6 ensures !StartsWith("250.00"[k..], ",") {
        if k < 6 {
          assert "250.00"[k..][..1] == ["250.00"[k]];
        }
      }
    }
  }

  /** The amount line "₹250.00": the run after the rupee sign, with no comma to remove. */
  lemma ExampleAmount()
    ensures ParseAmount("₹250.00") == Some(250.0)
  {
    assert "₹250.00"[1..] == "250.00";
    ExampleRun();
    assert FirstAmountRun("₹250.00") == Some("250.00");
    ExampleNoComma();
    ExampleFloat();
  }

  /** "Feb 21, 2026" is a date anchor. */
  lemma ExampleDate()
    ensures IsDateLine("Feb 21, 2026")
  {
    var s := "Feb 21, 2026";
    assert s[8..] == "2026";
  }

  /** The merchant scan takes "Coffee House" and stops at the transaction id. */
  lemma ExampleTailEnd()
    ensures TailEnd(EXAMPLE_LINES, 5) == 6
  {
    var lines := EXAMPLE_LINES;
    assert lines[5] == "Coffee House" && lines[6] == "Transaction ID 123";
    assert "Transaction ID 123"[..14] == "Transaction ID";
    assert StartsWith(lines[6], "Transaction ID");
    assert !IsDateLine(lines[5]);
    assert !StartsWith(lines[5], "Transaction ID") && !StartsWith(lines[5], "Bank Reference");
    assert !StartsWith(lines[5], "UTR No") by {
      assert lines[5][..6] != "UTR No" by { assert lines[5][0] != 'U'; }
    }
  }

  /** "Paid to" is canonical, so the merchant is the tail itself. */
  lemma ExampleDescribe()
    ensures MakeRecord("Feb 21, 2026", DEBIT, 250.0, "Paid to", "Coffee House")
         == ParsedTxn("Feb 21, 2026", "Paid to Coffee House", "Coffee House", 250.0, DEBIT,
                      None, None, false)
  {
    assert "Paid to" == CANONICAL_PHRASES[0];
    assert "Paid to" + " " + "Coffee House" == "Paid to Coffee House";
  }

  /** The block at line 0 of the excerpt is accepted; its merchant scan stops at line 6. */
  lemma ExampleAccepted()
    ensures Accepted(EXAMPLE_LINES, 0) && BlockEnd(EXAMPLE_LINES, 0) == 6
    ensures TypeOf(EXAMPLE_LINES[2]) == Some(DEBIT) && ParseAmount(EXAMPLE_LINES[3]) == Some(250.0)
  {
    var lines := EXAMPLE_LINES;
    assert lines[0] == "Feb 21, 2026" && lines[2] == "DEBIT" && lines[3] == "₹250.00";
    ExampleDate();
    assert Upper("DEBIT") == "DEBIT";
    ExampleAmount();
    ExampleTailEnd();
  }

  /** An accepted block whose merchant tail is the single stripped line i+5. */
  lemma SingleTailBlock(lines: seq<string>, i: nat)
    requires i + 5 < |lines| && Accepted(lines, i) && BlockEnd(lines, i) == i + 6
    requires Strip(lines[i + 5]) == lines[i + 5]
    ensures BlockRecord(lines, i)
         == MakeRecord(lines[i], TypeOf(lines[i + 2]).value, ParseAmount(lines[i + 3]).value, lines[i + 4], lines[i + 5])
  {
    assert lines[i + 5..i + 6] == [lines[i + 5]];
  }

  /** The fields the block at line 0 hands to `MakeRecord`. */
  lemma ExampleFields()
    ensures Accepted(EXAMPLE_LINES, 0) && BlockEnd(EXAMPLE_LINES, 0) == 6
    ensures BlockRecord(EXAMPLE_LINES, 0) == MakeRecord("Feb 21, 2026", DEBIT, 250.0, "Paid to", "Coffee House")
  {
    ExampleAccepted();
    var lines := EXAMPLE_LINES;
    StripUnchanged(lines[5]);
    SingleTailBlock(lines, 0);
    assert lines[0] == "Feb 21, 2026" && lines[4] == "Paid to" && lines[5] == "Coffee House";
  }

  /** The record of that block: the Coffee House debit of 250. */
  lemma ExampleBlock()
    ensures Accepted(EXAMPLE_LINES, 0) && BlockEnd(EXAMPLE_LINES, 0) == 6
    ensures BlockRecord(EXAMPLE_LINES, 0)
         == ParsedTxn("Feb 21, 2026", "Paid to Coffee House", "Coffee House", 250.0, DEBIT,
                      None, None, false)
  {
    ExampleFields();
    ExampleDescribe();
  }

  /** Nothing follows the block: the last line is no anchor. */
  lemma ExampleRest()
    ensures ScanFrom(EXAMPLE_LINES, 6) == []
  {
    var lines := EXAMPLE_LINES;
    assert lines[6] == "Transaction ID 123";
    assert !IsDateLine(lines[6]);
  }

  /** The scan of the example lines emits the block's record and nothing after it. */
  lemma ExampleScan()
    ensures ScanFrom(EXAMPLE_LINES, 0)
         == [ParsedTxn("Feb 21, 2026", "Paid to Coffee House", "Coffee House", 250.0, DEBIT,
                       None, None, false)]
  {
    ExampleBlock();
    ExampleRest();
    assert ScanFrom(EXAMPLE_LINES, 0) == [BlockRecord(EXAMPLE_LINES, 0)] + ScanFrom(EXAMPLE_LINES, 6);
  }

  /** The excerpt yields exactly one record: the Coffee House debit of 250. */
  lemma CoffeeHouseExample()
    ensures Parse(ExampleText())
         == [ParsedTxn("Feb 21, 2026", "Paid to Coffee House", "Coffee House", 250.0, DEBIT,
                       None, None, false)]
  {
    ExampleLines();
    ExampleScan();
  }

  /** A non-canonical phrase with a short, clean description keeps that description as merchant. */
  lemma CleanDescriptionIsMerchant(date: string, txnType: TxnType, amount: real, phrase: string, tail: string)
    requires phrase !in CANONICAL_PHRASES && tail != ""
    requires !MentionsRemovedPhrase(phrase + " " + tail) && Strip(phrase + " " + tail) == phrase + " " + tail
    requires |phrase + " " + tail| <= MAX_FIELD_LEN
    ensures MakeRecord(date, txnType, amount, phrase, tail).merchant == phrase + " " + tail
  {
    var d := phrase + " " + tail;
    assert d == phrase + (if tail != "" then " " + tail else "");
    assert d != [] by { assert |d| == |phrase| + 1 + |tail|; }
    assert Take(d, MAX_FIELD_LEN) == d;
  }

  /** "Money Added to Wallet" holds none of the removed phrases and is its own strip. */
  lemma WalletDescriptionClean()
    ensures !MentionsRemovedPhrase("Money Added to Wallet")
    ensures Strip("Money Added to Wallet") == "Money Added to Wallet"
  {
    var d := "Money Added to Wallet";
    FirstCharAbsent(d, "Paid to");
    FirstCharAbsent(d, "Received from");
    FirstCharAbsent(d, "Sent to");
    StripUnchanged(d);
  }

  /**
   * A direction phrase outside the canonical four keeps "Added to" in the merchant:
   * only "Paid to", "Received from" and "Sent to" are removed.
   */
  lemma WalletTopUp()
    ensures MakeRecord("Mar 3, 2025", CREDIT, 500.0, "Money Added to", "Wallet").merchant == "Money Added to Wallet"
  {
    assert "Money Added to" + " " + "Wallet" == "Money Added to Wallet";
    assert "Money Added to" !in CANONICAL_PHRASES;
    WalletDescriptionClean();
    CleanDescriptionIsMerchant("Mar 3, 2025", CREDIT, 500.0, "Money Added to", "Wallet");
  }

  /**
   * A non-canonical direction line that opens with a removed phrase loses that phrase:
   * what is left, stripped, is the merchant when it is non-empty and fits 255 characters.
   */
  lemma LeadingPhraseIsRemoved(date: string, txnType: TxnType, amount: real, phrase: string, p: string, m: string)
    requires phrase !in CANONICAL_PHRASES && LeadsWithRemoved(phrase, p)
    requires Strip(phrase[|p|..]) == m && m != "" && |m| <= MAX_FIELD_LEN
    ensures MakeRecord(date, txnType, amount, phrase, "").merchant == m
  {
    assert phrase + (if "" != "" then " " + "" else "") == phrase;
    assert Take(m, MAX_FIELD_LEN) == m;
  }

  /** " Zomato" holds none of the removed phrases and strips to "Zomato". */
  lemma ZomatoRest()
    ensures !MentionsRemovedPhrase(" Zomato")
    ensures Strip(" Zomato") == "Zomato"
  {
    FirstCharAbsent(" Zomato", "Paid to");
    FirstCharAbsent(" Zomato", "Received from");
    FirstCharAbsent(" Zomato", "Sent to");
    assert " Zomato"[1..] == "Zomato";
    StripUnchanged("Zomato");
  }

  /**
   * A one-line direction "Paid to Zomato" is not one of the canonical phrases, so the
   * fallback removes "Paid to" and the merchant is "Zomato".
   */
  lemma OneLineDirection()
    ensures MakeRecord("Feb 21, 2026", DEBIT, 120.0, "Paid to Zomato", "").merchant == "Zomato"
  {
    var phrase := "Paid to Zomato";
    assert phrase !in CANONICAL_PHRASES;
    assert phrase[..|"Paid to"|] == "Paid to" && phrase[|"Paid to"|..] == " Zomato";
    ZomatoRest();
    assert LeadsWithRemoved(phrase, "Paid to");
    LeadingPhraseIsRemoved("Feb 21, 2026", DEBIT, 120.0, phrase, "Paid to", "Zomato");
  }

  /** The digits "1250" denote 1250. */
  lemma ExampleDigits()
    ensures DigitsValue("1250") == 1250
  {
    assert "1"[..0] == "";
    assert "12"[..1] == "1";
    assert "125"[..2] == "12";
    assert "1250"[..3] == "125";
  }

  /** `float("1250.50")` is 1250.5. */
  lemma ExampleCommaFreeFloat()
    ensures ParseFloat("1250.50") == Some(1250.5)
  {
    assert IndexOf("1250.50", '.') == 4;
    assert "1250.50"[..4] == "1250" && "1250.50"[5..] == "50";
    ExampleDigits();
    assert DigitsValue("50") == 50 by {
      assert "5"[..0] == "";
      assert "50"[..1] == "5";
    }
    assert '.' in "1250.50" && '.' !in "50";
    assert Pow10(2) == 100 by {
      assert Pow10(1) == 10;
    }
    assert 1250 as real + 50 as real / 100 as real == 1250.5;
  }

  /** The whole of "1,250.50" is one numeric run: the comma does not end it. */
  lemma ExampleCommaRun()
    ensures LeadingRun("1,250.50") == "1,250.50"
  {
    assert "1,250.50"[1..] == ",250.50" && ",250.50"[1..] == "250.50" && "250.50"[1..] == "50.50";
    assert "50.50"[1..] == "0.50" && "0.50"[1..] == ".50" && ".50"[1..] == "50";
    assert "50"[1..] == "0" && "0"[1..] == "";
  }

  /** "250.50" holds no comma. */
  lemma ExampleNoCommaAfter()
    ensures RemoveAll("250.50", ",") == "250.50"
  {
    RemoveAllAbsent("250.50", ",") by {
      forall k | 0 <= k <= 6 ensures !StartsWith("250.50"[k..], ",") {
        if k < 6 {
          assert "250.50"[k..][..1] == ["250.50"[k]];
        }
      }
    }
  }

  /** The comma of "1,250.50" is removed. */
  lemma ExampleCommaRemoved()
    ensures RemoveAll("1,250.50", ",") == "1250.50"
  {
    assert "1,250.50"[..1] == "1" && "1,250.50"[1..] == ",250.50";
    assert ",250.50"[..1] == "," && ",250.50"[1..] == "250.50";
    ExampleNoCommaAfter();
  }

  /** The amount line "₹1,250.50" reads as 1250.5: the thousands separator is dropped. */
  lemma ExampleCommaAmount()
    ensures ParseAmount("₹1,250.50") == Some(1250.5)
  {
    assert "₹1,250.50"[1..] == "1,250.50";
    ExampleCommaRun();
    assert FirstAmountRun("₹1,250.50") == Some("1,250.50");
    ExampleCommaRemoved();
    ExampleCommaFreeFloat();
  }
}
