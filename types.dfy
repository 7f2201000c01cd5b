/** Records and identifiers of the settlement program, and the outcomes its
    instructions report. */
module Types {

  /** Exclusive upper bound of a Rust `u64`. */
  const U64_LIMIT: int := 0x1_0000_0000_0000_0000

  type U64 = x: int | 0 <= x < 0x1_0000_0000_0000_0000
  type U32 = x: int | 0 <= x < 0x1_0000_0000
  type U16 = x: int | 0 <= x < 0x1_0000
  type Byte = x: int | 0 <= x < 0x100

  /** A Solana account address: 32 bytes, compared byte for byte. */
  type Pubkey = s: seq<Byte> | |s| == 32 witness seq(32, i => 0)

  /** The IEEE-754 bit pattern of an `f64`; the model never interprets it. */
  type F64 = bv64

  datatype Card = Card(name: string, memory: U32)

  /** A compute node's account data, written whole by registration. */
  datatype GpuNode = GpuNode(
    id: string,
    owner: Pubkey,
    cards: seq<Card>,
    cudaVersion: string,
    price: U64,
    endpoint: string)

  /** An AI agent's account data, written whole by registration. */
  datatype Agent = Agent(
    owner: Pubkey,
    title: string,
    desc: string,
    poster: string,
    category: string,
    dockerImageHref: string,
    apiProtocol: string,
    apiPort: U16,
    apiDoc: string,
    revenueSplit: F64)

  /** The task terms the three parties sign, in declaration order. */
  datatype AiTask = AiTask(
    user: Pubkey,
    agentOwner: Pubkey,
    gpuNodeOwner: Pubkey,
    timestamp: U64,
    price: U64)

  /** Three signature byte strings, one nominally per party. */
  datatype AiTaskSignature = AiTaskSignature(user: seq<Byte>, agent: seq<Byte>, gpuNode: seq<Byte>)

  /** Why a transaction aborts by panicking (an `unwrap` on an error, or an
      arithmetic overflow check). */
  datatype PanicCause = SignatureRejected | SubtractionUnderflow | TransferFailed

  /** Errors an instruction returns; the runtime rolls back every write of a
      failed instruction, whether it returned an error or panicked. */
  datatype Error =
    | InsufficientFunds          // the program's own CustomError
    | AccountNotInitialized      // a named account holds no record of its type
    | AccountDidNotDeserialize   // the delegate is not a token account
    | Panic(cause: PanicCause)

  datatype Option<T> = None | Some(value: T)

  datatype Result<T> = Ok(value: T) | Err(error: Error)
}
