/** The colour and sign rules the Dashboard and Withdraw pages apply to
    transaction and withdrawal rows (src/pages/Dashboard.jsx,
    src/pages/Withdraw.jsx). */
module Display {

  datatype Colour = Green | Yellow | Red

  /** Transaction types that add to the wallet. */
  predicate IsCredit(txType: string) {
    txType == "deposit" || txType == "roi" || txType == "referral"
  }

  /** The sign printed before a transaction amount. */
  function TxSign(txType: string): (c: char)
    ensures c == '+' || c == '-'
    ensures c == '+' <==> IsCredit(txType)
  {
    if txType == "deposit" || txType == "roi" || txType == "referral" then '+' else '-'
  }

  /** The colour of a transaction amount. */
  function AmountColour(txType: string): (c: Colour)
    ensures c == Green || c == Red
    ensures c == Green <==> IsCredit(txType)
  {
    if txType == "deposit" || txType == "roi" || txType == "referral" then Green else Red
  }

  /** The two expressions test the same condition, so a '+' is always green
      and a '-' always red. */
  lemma SignAgreesWithColour(txType: string)
    ensures TxSign(txType) == '+' <==> AmountColour(txType) == Green
    ensures TxSign(txType) == '-' <==> AmountColour(txType) == Red
  {
  }

  /** The colour of a transaction or withdrawal status. */
  function StatusColour(status: string): (c: Colour)
    ensures c == Green <==> status == "approved" || status == "completed"
    ensures c == Yellow <==> status == "pending"
    ensures c == Red <==> status != "approved" && status != "completed" && status != "pending"
  {
    if status == "approved" || status == "completed" then Green
    else if status == "pending" then Yellow
    else Red
  }
}
