/**
 * The value types of package core: the transaction carried in a block, the
 * AI agent, and the block itself.
 */
module Core {

  newtype Byte = b: int | 0 <= b < 256
  type Bytes = seq<Byte>

  /** A transaction as encoded in a block: its kind, payload, sender, raw data and fee. */
  datatype Transaction = Transaction(
    txType: string,
    content: string,
    from: string,
    data: Bytes,
    fee: int)

  /**
   * One value of an agent's metadata map, already rendered by "%v": a JSON array
   * decodes to a list of items, anything else to one scalar.
   */
  datatype MetaValue = Scalar(text: string) | List(items: seq<string>)

  /** One entry of the metadata map. */
  datatype MetaEntry = MetaEntry(key: string, value: MetaValue)

  /**
   * An agent. `metadata` lists the entries of the source's map in the order Go's
   * map iteration happens to visit them; that order is unspecified there.
   */
  datatype Agent = Agent(
    id: string,
    name: string,
    role: string,
    validatorAddress: string,
    isValidator: bool,
    metadata: seq<MetaEntry>)

  const ZeroAgent := Agent("", "", "", "", false, [])

  datatype Block = Block(
    height: int,
    prevHash: string,
    txs: seq<Transaction>,
    timestamp: int,
    signature: string,
    proposer: string,
    chainID: string)
}
