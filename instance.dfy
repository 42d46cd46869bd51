/** The Magic Arbuz orbital instance: a single-edition token contract that
    remembers its index and the collection contract that created it, and
    answers a fixed set of opcodes. Persistent storage is a map from slot key
    to bytes; the one-time initialization guard is a flag that only goes from
    false to true. */
module ArbuzInstance {
  import opened Bytes
  import opened Text
  import opened Runtime

  const COLLECTION_KEY: string := "/collection-alkane-id"
  const INDEX_KEY: string := "/index"
  const NAME: string := "Magic Arbuz"
  const SYMBOL: string := "magic-arbuz"
  const CONTENT_TYPE: string := "text/javascript"
  const TOTAL_SUPPLY: u128 := 1
  /** The opcodes this contract sends to its collection to fetch shared data. */
  const DATA_OPCODE: u128 := 1000
  const ATTRIBUTES_OPCODE: u128 := 999

  // ---------------------------------------------------------------------------
  // The 32-byte collection id codec and the 16-byte index slot

  /** The stored form of an id: 16 little-endian bytes of `block`, then 16 of `tx`. */
  function EncodeId(id: AlkaneId): (bytes: seq<byte>)
    ensures |bytes| == 32
    ensures FromLe(bytes[..16]) == id.block && FromLe(bytes[16..]) == id.tx
  {
    var bytes := ToLe16(id.block) + ToLe16(id.tx);
    assert bytes[..16] == ToLe16(id.block) && bytes[16..] == ToLe16(id.tx);
    bytes
  }

  /** The decoding half of `collection_ref`: an empty slot is "not found", fewer
      than 32 bytes cannot be sliced, and bytes past the 32nd are ignored. */
  function DecodeId(data: seq<byte>): (r: Result<AlkaneId>)
    ensures r == Err(CollectionReferenceNotFound) <==> |data| == 0
    ensures r.Ok? <==> |data| >= 32
    ensures r.Ok? ==> EncodeId(r.value) == data[..32]
  {
    if |data| == 0 then Err(CollectionReferenceNotFound)
    else if |data| < 32 then Err(CorruptState)
    else
      var id := AlkaneId(FromLe16(data[0..16]), FromLe16(data[16..32]));
      assert data[..32] == data[0..16] + data[16..32];
      Ok(id)
  }

  /** Decoding what was encoded gives the id back. */
  lemma DecodeEncodeId(id: AlkaneId)
    ensures DecodeId(EncodeId(id)) == Ok(id)
  {
    var bytes := EncodeId(id);
    var r := DecodeId(bytes);
    assert EncodeId(r.value) == bytes;
    ToLe16Injective(r.value.block, id.block);
    ToLe16Injective(r.value.tx, id.tx);
  }

  /** Any slot content that decodes to an id begins with that id's encoding. */
  lemma EncodeDecodeId(data: seq<byte>, id: AlkaneId)
    requires DecodeId(data) == Ok(id)
    ensures |data| >= 32 && data[..32] == EncodeId(id)
  {
  }

  /** Reading the `/index` slot as a `u128`: an empty slot reads as 0, a
      16-byte slot as its little-endian value, any other length fails. */
  function DecodeIndex(data: seq<byte>): (r: Result<u128>)
    ensures r.Ok? <==> |data| == 0 || |data| == 16
    ensures |data| == 0 ==> r == Ok(0)
    ensures |data| == 16 ==> r.Ok? && ToLe16(r.value) == data
  {
    if |data| == 0 then Ok(0)
    else if |data| == 16 then Ok(FromLe16(data))
    else Err(CorruptState)
  }

  // ---------------------------------------------------------------------------
  // Identity text

  /** `format!("{} #{}", "Magic Arbuz", index)`. */
  function NameOf(index: u128): (s: string)
    ensures |s| > |NAME + " #"| && s[..|NAME + " #"|] == "Magic Arbuz #"
    ensures IsCanonicalDecimal(s[|NAME + " #"|..])
    ensures DigitsValue(s[|NAME + " #"|..]) == index
    ensures IsAscii(s)
  {
    var s := NAME + " #" + Decimal(index);
    DecimalValue(index);
    assert s[|NAME + " #"|..] == Decimal(index);
    s
  }

  /** `format!("{}-{}", "magic-arbuz", index)`. */
  function SymbolOf(index: u128): (s: string)
    ensures |s| > |SYMBOL + "-"| && s[..|SYMBOL + "-"|] == "magic-arbuz-"
    ensures IsCanonicalDecimal(s[|SYMBOL + "-"|..])
    ensures DigitsValue(s[|SYMBOL + "-"|..]) == index
    ensures IsAscii(s)
  {
    var s := SYMBOL + "-" + Decimal(index);
    DecimalValue(index);
    assert s[|SYMBOL + "-"|..] == Decimal(index);
    s
  }

  /** Distinct instances have distinct names and distinct symbols. */
  lemma NameAndSymbolInjective(i: u128, j: u128)
    ensures NameOf(i) == NameOf(j) ==> i == j
    ensures SymbolOf(i) == SymbolOf(j) ==> i == j
  {
  }

  /** `format!("{}:{}", block, tx)`: both numbers in decimal around one ':'. */
  function IdentifierText(id: AlkaneId): (s: string)
    ensures ColonIndex(s) < |s| && s[ColonIndex(s)] == ':'
    ensures IsCanonicalDecimal(s[..ColonIndex(s)]) && IsCanonicalDecimal(s[ColonIndex(s) + 1..])
    ensures DigitsValue(s[..ColonIndex(s)]) == id.block
    ensures DigitsValue(s[ColonIndex(s) + 1..]) == id.tx
    ensures IsAscii(s)
  {
    var x, y := Decimal(id.block), Decimal(id.tx);
    var s := x + ":" + y;
    ColonIndexAfterDigits(x, y);
    assert s[..|x|] == x && s[|x| + 1..] == y;
    DecimalValue(id.block);
    DecimalValue(id.tx);
    s
  }

  /** Distinct collection ids have distinct identifier texts: the ':' splits each
      text back into its two numbers. */
  lemma IdentifierTextInjective(a: AlkaneId, b: AlkaneId)
    ensures IdentifierText(a) == IdentifierText(b) ==> a == b
  {
    if IdentifierText(a) == IdentifierText(b) {
      ColonPairInjective(a.block, a.tx, b.block, b.tx);
    }
  }

  /** The content-type label is ASCII, so its UTF-8 bytes are its character codes. */
  lemma ContentTypeIsAscii()
    ensures IsAscii(CONTENT_TYPE) && |CONTENT_TYPE| == 15
  {
  }

  // ---------------------------------------------------------------------------
  // Opcodes

  /** The contract's messages, one per opcode. */
  datatype Message =
    | Initialize(index: u128)
    | GetName
    | GetSymbol
    | GetTotalSupply
    | GetCollectionIdentifier
    | GetCollectionAlkaneId
    | GetData
    | GetContentType
    | GetAttributes

  /** The opcode each message is declared with. */
  function Opcode(m: Message): (c: u128)
    ensures c == 0 <==> m.Initialize?
    ensures c in {0, 99, 100, 101, 998, 999, 1000, 1001, 1002}
  {
    match m
    case Initialize(_) => 0
    case GetName => 99
    case GetSymbol => 100
    case GetTotalSupply => 101
    case GetCollectionIdentifier => 998
    case GetCollectionAlkaneId => 999
    case GetData => 1000
    case GetContentType => 1001
    case GetAttributes => 1002
  }

  /** The input words that follow the opcode. */
  function Arguments(m: Message): seq<u128> {
    if m.Initialize? then [m.index] else []
  }

  /** Reads a message from input words: the opcode, then the message's fields. */
  function ParseMessage(inputs: seq<u128>): (r: Result<Message>)
    ensures r.Ok? ==> |inputs| >= 1 + |Arguments(r.value)|
    ensures r.Ok? ==> inputs[..1 + |Arguments(r.value)|] == [Opcode(r.value)] + Arguments(r.value)
    ensures r.Err? ==> r.error == MissingInput || (inputs != [] && r.error == UnknownOpcode(inputs[0]))
  {
    if inputs == [] then Err(MissingInput)
    else
      match inputs[0]
      case 0 => if |inputs| < 2 then Err(MissingInput) else Ok(Initialize(inputs[1]))
      case 99 => Ok(GetName)
      case 100 => Ok(GetSymbol)
      case 101 => Ok(GetTotalSupply)
      case 998 => Ok(GetCollectionIdentifier)
      case 999 => Ok(GetCollectionAlkaneId)
      case 1000 => Ok(GetData)
      case 1001 => Ok(GetContentType)
      case 1002 => Ok(GetAttributes)
      case _ => Err(UnknownOpcode(inputs[0]))
  }

  /** Every message is read back from its own opcode and arguments. */
  lemma ParseMessageRoundTrip(m: Message, rest: seq<u128>)
    ensures ParseMessage([Opcode(m)] + Arguments(m) + rest) == Ok(m)
  {
  }

  // ---------------------------------------------------------------------------
  // The contract

  class ArbuzOrbitalInstance {
    /** Persistent storage: slot key to bytes; a missing key reads as empty. */
    var store: map<string, seq<byte>>
    /** The one-time initialization guard. */
    var initialized: bool

    /** The states the contract can reach: only the two slots are ever written,
        both together and only by the initializing call, and each with its full width. */
    ghost predicate Valid()
      reads this
    {
      && store.Keys <= {COLLECTION_KEY, INDEX_KEY}
      && (COLLECTION_KEY in store <==> initialized)
      && (INDEX_KEY in store <==> initialized)
      && (COLLECTION_KEY in store ==> |store[COLLECTION_KEY]| == 32)
      && (INDEX_KEY in store ==> |store[INDEX_KEY]| == 16)
    }

    /** A freshly deployed contract: empty storage, guard unused. */
    constructor ()
      ensures store == map[] && !initialized
      ensures Valid()
    {
      store := map[];
      initialized := false;
    }

    function Slot(key: string): seq<byte>
      reads this
    {
      if key in store then store[key] else []
    }

    /** `collection_ref`: the stored collection id, or why it cannot be read. */
    function CollectionRef(): (r: Result<AlkaneId>)
      reads this
      ensures r == Err(CollectionReferenceNotFound) <==> Slot(COLLECTION_KEY) == []
      ensures r.Ok? <==> |Slot(COLLECTION_KEY)| >= 32
      ensures r.Ok? ==> EncodeId(r.value) == Slot(COLLECTION_KEY)[..32]
    {
      DecodeId(Slot(COLLECTION_KEY))
    }

    /** `index`: the stored index; 0 while the slot is empty. */
    function Index(): (r: Result<u128>)
      reads this
      ensures r.Ok? <==> |Slot(INDEX_KEY)| == 0 || |Slot(INDEX_KEY)| == 16
      ensures Slot(INDEX_KEY) == [] ==> r == Ok(0)
      ensures |Slot(INDEX_KEY)| == 16 ==> r.Ok? && ToLe16(r.value) == Slot(INDEX_KEY)
    {
      DecodeIndex(Slot(INDEX_KEY))
    }

    /** `Token::name`, from the stored index. */
    function Name(): (r: Result<string>)
      reads this
      ensures r.Ok? <==> Index().Ok?
      ensures r.Ok? ==> r.value == NameOf(Index().value)
    {
      match Index()
      case Ok(i) => Ok(NameOf(i))
      case Err(e) => Err(e)
    }

    /** `Token::symbol`, from the stored index. */
    function Symbol(): (r: Result<string>)
      reads this
      ensures r.Ok? <==> Index().Ok?
      ensures r.Ok? ==> r.value == SymbolOf(Index().value)
    {
      match Index()
      case Ok(i) => Ok(SymbolOf(i))
      case Err(e) => Err(e)
    }

    /** In every reachable state the slots read back exactly when the contract is initialized. */
    lemma ReadsMatchGuard()
      requires Valid()
      ensures CollectionRef().Ok? <==> initialized
      ensures CollectionRef().Err? ==> CollectionRef().error == CollectionReferenceNotFound
      ensures Index().Ok?
      ensures !initialized ==> Index() == Ok(0)
    {
    }

    /** `observe_initialization`: succeeds once; afterwards the guard is set for good. */
    method ObserveInitialization() returns (r: Result<()>)
      modifies this`initialized
      ensures initialized
      ensures r.Ok? <==> !old(initialized)
      ensures r.Err? ==> r.error == AlreadyInitialized
    {
      if initialized {
        r := Err(AlreadyInitialized);
      } else {
        initialized := true;
        r := Ok(());
      }
    }

    /** `set_collection_alkane_id`: writes `block` then `tx`, 16 little-endian bytes each. */
    method SetCollectionAlkaneId(id: AlkaneId)
      modifies this`store
      ensures store == old(store)[COLLECTION_KEY := EncodeId(id)]
    {
      var bytes: seq<byte> := [];
      bytes := bytes + ToLe16(id.block);
      bytes := bytes + ToLe16(id.tx);
      assert bytes == EncodeId(id);
      store := store[COLLECTION_KEY := bytes];
    }

    /** `set_index`: writes the index as 16 little-endian bytes. */
    method SetIndex(index: u128)
      modifies this`store
      ensures store == old(store)[INDEX_KEY := ToLe16(index)]
    {
      store := store[INDEX_KEY := ToLe16(index)];
    }

    /** `initialize`: checks the guard before writing anything; on success records
        the caller as the collection and `index` as the index, and answers with the
        incoming transfers followed by one unit of this contract's own token. */
    method HandleInitialize(index: u128, ctx: Context) returns (r: Result<CallResponse>)
      modifies this
      ensures initialized
      ensures old(initialized) ==> r == Err(AlreadyInitialized) && store == old(store)
      ensures !old(initialized) ==>
        && r == Ok(CallResponse(ctx.incomingAlkanes + [AlkaneTransfer(ctx.myself, 1)], []))
        && store == old(store)[COLLECTION_KEY := EncodeId(ctx.caller)][INDEX_KEY := ToLe16(index)]
      ensures r.Ok? ==> CollectionRef() == Ok(ctx.caller) && Index() == Ok(index)
      ensures old(Valid()) ==> Valid()
    {
      var response := Forward(ctx.incomingAlkanes);
      var guard := ObserveInitialization();
      if guard.Err? {
        return Err(guard.error);
      }
      SetCollectionAlkaneId(ctx.caller);
      SetIndex(index);
      response := response.(alkanes := response.alkanes + [AlkaneTransfer(ctx.myself, 1)]);
      r := Ok(response);
      DecodeEncodeId(ctx.caller);
      ToLe16Injective(Index().value, index);
    }

    /** `get_name`: the name's UTF-8 bytes. */
    method HandleGetName(ctx: Context) returns (r: Result<CallResponse>)
      ensures r.Ok? <==> Index().Ok?
      ensures r.Err? ==> r.error == Index().error
      ensures r.Ok? ==> r.value.alkanes == ctx.incomingAlkanes
      ensures r.Ok? ==> r.value.data == Utf8(NameOf(Index().value))
    {
      var response := Forward(ctx.incomingAlkanes);
      var name := Name();
      if name.Err? {
        return Err(name.error);
      }
      response := response.(data := Utf8(name.value));
      r := Ok(response);
    }

    /** `get_symbol`: the symbol's UTF-8 bytes. */
    method HandleGetSymbol(ctx: Context) returns (r: Result<CallResponse>)
      ensures r.Ok? <==> Index().Ok?
      ensures r.Err? ==> r.error == Index().error
      ensures r.Ok? ==> r.value.alkanes == ctx.incomingAlkanes
      ensures r.Ok? ==> r.value.data == Utf8(SymbolOf(Index().value))
    {
      var response := Forward(ctx.incomingAlkanes);
      var symbol := Symbol();
      if symbol.Err? {
        return Err(symbol.error);
      }
      response := response.(data := Utf8(symbol.value));
      r := Ok(response);
    }

    /** `get_total_supply`: always the 16-byte little-endian encoding of 1. */
    method HandleGetTotalSupply(ctx: Context) returns (r: Result<CallResponse>)
      ensures r.Ok? && r.value.alkanes == ctx.incomingAlkanes
      ensures |r.value.data| == 16 && FromLe(r.value.data) == TOTAL_SUPPLY
      ensures r.value.data == ToLe16(TOTAL_SUPPLY)
    {
      var response := Forward(ctx.incomingAlkanes);
      response := response.(data := ToLe16(TOTAL_SUPPLY));
      r := Ok(response);
    }

    /** `get_data`: one read-only call to the collection with inputs
        `[1000, index]` and no transfers; its data is returned verbatim and its
        failure is this call's failure. */
    method HandleGetData(ctx: Context, fuel: nat, staticcall: StaticCall) returns (r: Result<CallResponse>)
      ensures CollectionRef().Err? ==> r == Err(CollectionRef().error)
      ensures CollectionRef().Ok? && Index().Err? ==> r == Err(Index().error)
      ensures CollectionRef().Ok? && Index().Ok? ==>
        var reply := staticcall(Cellpack(CollectionRef().value, [DATA_OPCODE, Index().value]), [], fuel);
        && (r.Ok? <==> reply.Ok?)
        && (reply.Err? ==> r.error == reply.error)
        && (reply.Ok? ==> r.value == CallResponse(ctx.incomingAlkanes, reply.value.data))
    {
      var response := Forward(ctx.incomingAlkanes);
      var collection := CollectionRef();
      if collection.Err? {
        return Err(collection.error);
      }
      var index := Index();
      if index.Err? {
        return Err(index.error);
      }
      var cellpack := Cellpack(collection.value, [DATA_OPCODE, index.value]);
      var reply := staticcall(cellpack, [], fuel);
      if reply.Err? {
        return Err(reply.error);
      }
      response := response.(data := reply.value.data);
      r := Ok(response);
    }

    /** `get_content_type`: the UTF-8 bytes of the fixed label "text/javascript". */
    method HandleGetContentType(ctx: Context) returns (r: Result<CallResponse>)
      ensures r.Ok? && r.value.alkanes == ctx.incomingAlkanes
      ensures r.value.data == Utf8(CONTENT_TYPE)
    {
      var response := Forward(ctx.incomingAlkanes);
      response := response.(data := Utf8(CONTENT_TYPE));
      r := Ok(response);
    }

    /** `get_attributes`: as `get_data`, with inputs `[999, index]`. */
    method HandleGetAttributes(ctx: Context, fuel: nat, staticcall: StaticCall) returns (r: Result<CallResponse>)
      ensures CollectionRef().Err? ==> r == Err(CollectionRef().error)
      ensures CollectionRef().Ok? && Index().Err? ==> r == Err(Index().error)
      ensures CollectionRef().Ok? && Index().Ok? ==>
        var reply := staticcall(Cellpack(CollectionRef().value, [ATTRIBUTES_OPCODE, Index().value]), [], fuel);
        && (r.Ok? <==> reply.Ok?)
        && (reply.Err? ==> r.error == reply.error)
        && (reply.Ok? ==> r.value == CallResponse(ctx.incomingAlkanes, reply.value.data))
    {
      var response := Forward(ctx.incomingAlkanes);
      var collection := CollectionRef();
      if collection.Err? {
        return Err(collection.error);
      }
      var index := Index();
      if index.Err? {
        return Err(index.error);
      }
      var cellpack := Cellpack(collection.value, [ATTRIBUTES_OPCODE, index.value]);
      var reply := staticcall(cellpack, [], fuel);
      if reply.Err? {
        return Err(reply.error);
      }
      response := response.(data := reply.value.data);
      r := Ok(response);
    }

    /** `get_collection_identifier`: the collection id as decimal "block:tx". */
    method HandleGetCollectionIdentifier(ctx: Context) returns (r: Result<CallResponse>)
      ensures r.Ok? <==> CollectionRef().Ok?
      ensures r.Err? ==> r.error == CollectionRef().error
      ensures r.Ok? ==> r.value.alkanes == ctx.incomingAlkanes
      ensures r.Ok? ==> r.value.data == Utf8(IdentifierText(CollectionRef().value))
    {
      var response := Forward(ctx.incomingAlkanes);
      var collection := CollectionRef();
      if collection.Err? {
        return Err(collection.error);
      }
      response := response.(data := Utf8(IdentifierText(collection.value)));
      r := Ok(response);
    }

    /** `get_collection_alkane_id`: the collection id re-encoded as 32 bytes,
        which decode to the stored id and equal the slot's first 32 bytes. */
    method HandleGetCollectionAlkaneId(ctx: Context) returns (r: Result<CallResponse>)
      ensures r.Ok? <==> CollectionRef().Ok?
      ensures r.Err? ==> r.error == CollectionRef().error
      ensures r.Ok? ==> r.value.alkanes == ctx.incomingAlkanes
      ensures r.Ok? ==> |r.value.data| == 32 && DecodeId(r.value.data) == CollectionRef()
      ensures r.Ok? ==> r.value.data == Slot(COLLECTION_KEY)[..32]
    {
      var response := Forward(ctx.incomingAlkanes);
      var collection := CollectionRef();
      if collection.Err? {
        return Err(collection.error);
      }
      var bytes: seq<byte> := [];
      bytes := bytes + ToLe16(collection.value.block);
      bytes := bytes + ToLe16(collection.value.tx);
      assert bytes == EncodeId(collection.value);
      DecodeEncodeId(collection.value);
      response := response.(data := bytes);
      r := Ok(response);
    }

    /** The answer each read-only message gets in the current state: the reference
        the dispatcher is checked against. */
    function Answer(m: Message, ctx: Context, fuel: nat, staticcall: StaticCall): Result<CallResponse>
      requires !m.Initialize?
      reads this
    {
      match m
      case GetName =>
        if Index().Err? then Err(Index().error)
        else Ok(CallResponse(ctx.incomingAlkanes, Utf8(NameOf(Index().value))))
      case GetSymbol =>
        if Index().Err? then Err(Index().error)
        else Ok(CallResponse(ctx.incomingAlkanes, Utf8(SymbolOf(Index().value))))
      case GetTotalSupply => Ok(CallResponse(ctx.incomingAlkanes, ToLe16(TOTAL_SUPPLY)))
      case GetCollectionIdentifier =>
        if CollectionRef().Err? then Err(CollectionRef().error)
        else Ok(CallResponse(ctx.incomingAlkanes, Utf8(IdentifierText(CollectionRef().value))))
      case GetCollectionAlkaneId =>
        if CollectionRef().Err? then Err(CollectionRef().error)
        else Ok(CallResponse(ctx.incomingAlkanes, EncodeId(CollectionRef().value)))
      case GetData => Delegated(DATA_OPCODE, ctx, fuel, staticcall)
      case GetContentType => Ok(CallResponse(ctx.incomingAlkanes, Utf8(CONTENT_TYPE)))
      case GetAttributes => Delegated(ATTRIBUTES_OPCODE, ctx, fuel, staticcall)
    }

    /** The answer of a handler that fetches from the collection with `[opcode, index]`. */
    function Delegated(opcode: u128, ctx: Context, fuel: nat, staticcall: StaticCall): Result<CallResponse>
      reads this
    {
      if CollectionRef().Err? then Err(CollectionRef().error)
      else if Index().Err? then Err(Index().error)
      else
        var reply := staticcall(Cellpack(CollectionRef().value, [opcode, Index().value]), [], fuel);
        if reply.Err? then Err(reply.error) else Ok(CallResponse(ctx.incomingAlkanes, reply.value.data))
    }

    /** Runs the handler a read-only message's opcode names; none of them writes storage. */
    method Query(m: Message, ctx: Context, fuel: nat, staticcall: StaticCall) returns (r: Result<CallResponse>)
      requires !m.Initialize?
      ensures r == Answer(m, ctx, fuel, staticcall)
    {
      match m
      case GetName =>
        r := HandleGetName(ctx);
      case GetSymbol =>
        r := HandleGetSymbol(ctx);
      case GetTotalSupply =>
        r := HandleGetTotalSupply(ctx);
      case GetCollectionIdentifier =>
        r := HandleGetCollectionIdentifier(ctx);
      case GetCollectionAlkaneId =>
        r := HandleGetCollectionAlkaneId(ctx);
      case GetData =>
        r := HandleGetData(ctx, fuel, staticcall);
      case GetContentType =>
        r := HandleGetContentType(ctx);
      case GetAttributes =>
        r := HandleGetAttributes(ctx, fuel, staticcall);
    }

    /** The opcode dispatcher: reads the message from the input words, then runs
        its handler; input words that do not parse are the call's error. */
    method Dispatch(inputs: seq<u128>, ctx: Context, fuel: nat, staticcall: StaticCall) returns (r: Result<CallResponse>)
      modifies this
      ensures ParseMessage(inputs).Err? ==> r == Err(ParseMessage(inputs).error)
      ensures ParseMessage(inputs).Err? ==> store == old(store) && initialized == old(initialized)
      ensures ParseMessage(inputs).Ok? ==>
        var m := ParseMessage(inputs).value;
        && (m.Initialize? ==>
              && initialized
              && (old(initialized) ==> r == Err(AlreadyInitialized) && store == old(store))
              && (!old(initialized) ==>
                    && r == Ok(CallResponse(ctx.incomingAlkanes + [AlkaneTransfer(ctx.myself, 1)], []))
                    && store == old(store)[COLLECTION_KEY := EncodeId(ctx.caller)][INDEX_KEY := ToLe16(m.index)]))
        && (!m.Initialize? ==> r == Answer(m, ctx, fuel, staticcall))
        && (!m.Initialize? ==> store == old(store) && initialized == old(initialized))
      ensures old(Valid()) ==> Valid()
    {
      var message := ParseMessage(inputs);
      if message.Err? {
        return Err(message.error);
      }
      match message.value
      case Initialize(index) =>
        r := HandleInitialize(index, ctx);
      case _ =>
        r := Query(message.value, ctx, fuel, staticcall);
    }
  }

  // ---------------------------------------------------------------------------
  // Life of one instance

  /** A second initialization fails and leaves the first one's collection id and index in place. */
  method InitializeTwice(first: Context, firstIndex: u128, second: Context, secondIndex: u128)
    returns (r1: Result<CallResponse>, r2: Result<CallResponse>, collection: Result<AlkaneId>, index: Result<u128>)
    ensures r1 == Ok(CallResponse(first.incomingAlkanes + [AlkaneTransfer(first.myself, 1)], []))
    ensures r2 == Err(AlreadyInitialized)
    ensures collection == Ok(first.caller) && index == Ok(firstIndex)
  {
    var c := new ArbuzOrbitalInstance();
    r1 := c.HandleInitialize(firstIndex, first);
    r2 := c.HandleInitialize(secondIndex, second);
    collection := c.CollectionRef();
    index := c.Index();
  }

  /** Before initialization the collection cannot be read, while the index reads as 0. */
  method ReadBeforeInitialize(ctx: Context) returns (id: Result<CallResponse>, name: Result<CallResponse>)
    ensures id == Err(CollectionReferenceNotFound)
    ensures name == Ok(CallResponse(ctx.incomingAlkanes, Utf8(NameOf(0))))
  {
    var c := new ArbuzOrbitalInstance();
    id := c.HandleGetCollectionAlkaneId(ctx);
    name := c.HandleGetName(ctx);
  }

  /** After a successful initialization every query answers from what it stored:
      the caller as the collection, the given index, and remote fetches addressed
      to the caller with `[1000, index]`. */
  method InitializeThenQuery(ctx: Context, index: u128, query: Context, fuel: nat, staticcall: StaticCall)
    returns (alkaneId: Result<CallResponse>, identifier: Result<CallResponse>, name: Result<CallResponse>, data: Result<CallResponse>)
    ensures alkaneId.Ok? && DecodeId(alkaneId.value.data) == Ok(ctx.caller)
    ensures alkaneId.value.data == EncodeId(ctx.caller)
    ensures identifier == Ok(CallResponse(query.incomingAlkanes, Utf8(IdentifierText(ctx.caller))))
    ensures name == Ok(CallResponse(query.incomingAlkanes, Utf8(NameOf(index))))
    ensures var reply := staticcall(Cellpack(ctx.caller, [DATA_OPCODE, index]), [], fuel);
      && (data.Ok? <==> reply.Ok?)
      && (data.Ok? ==> data.value == CallResponse(query.incomingAlkanes, reply.value.data))
  {
    var c := new ArbuzOrbitalInstance();
    var init := c.HandleInitialize(index, ctx);
    assert init.Ok?;
    alkaneId := c.HandleGetCollectionAlkaneId(query);
    identifier := c.HandleGetCollectionIdentifier(query);
    name := c.HandleGetName(query);
    data := c.HandleGetData(query, fuel, staticcall);
  }
}
