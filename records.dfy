/** The rows of the tables the order pipeline reads and writes, the requests it sends to
    supplier platforms and the replies it gets back.  Amounts of TRX and USDT are integers
    in micro-units (10^-6 of a coin, the chain's own precision); energy is a plain count. */
module Records {
  import opened Common

  /** One million micro-units make one TRX or one USDT. */
  const MICRO: int := 1_000_000

  /** `process_status` values of a trade row. */
  const STATUS_PENDING: int := 1
  const STATUS_NO_PLATFORM: int := 4
  const STATUS_NO_PACKAGE: int := 7
  const STATUS_DONE: int := 9

  /** A row of `energy_wallet_trade_list`: an incoming transfer to a receiving wallet. */
  datatype Trade = Trade(
    rid: int,
    txHash: string,
    fromAddr: string,
    toAddr: string,
    coin: string,
    amount: int,
    timestamp: int,
    getTime: string,
    processStatus: int,
    comments: string,
    processTime: string,
    platformRid: Option<int>,     // energy_platform_rid, None until written
    packageRid: Option<int>,      // energy_package_rid, None until written
    botRid: int,
    pollGroup: string,
    platformBotRid: int,
    noticeReceive: string,        // tg_notice_status_receive
    noticeSend: string)           // tg_notice_status_send

  /** A row of `energy_platform_package`: what a TRX payment of `trxPrice` buys. */
  datatype Package = Package(
    rid: int, botRid: int, trxPrice: int, status: int,
    energyAmount: int, energyDay: int, name: string)

  /** A row of `energy_platform`: one supplier account; `kind` is the `platform_name` code
      (1 nee.cc, 2 RentEnergysBot, 3 own stake, 4 trongas.io). */
  datatype Platform = Platform(
    rid: int, kind: int, uid: string, apiKey: string,
    balance: int, status: int, seqSn: int, permissionId: int)

  /** A row of `energy_platform_order`: the durable record of one placed supplier order. */
  datatype PlatformOrder = PlatformOrder(
    platformRid: int,
    platformBotRid: int,
    kind: int,
    uid: string,
    receiveAddress: string,
    platformOrderId: string,
    energyAmount: int,
    energyDay: int,
    energyTime: string,
    sourceType: int,          // 2 automatic (payment), 3 standing order
    recoveryStatus: int,      // 2 for own-stake platforms, else 1
    useTrx: int)

  /** The two standing-order tables: `energy_ai_trusteeship` and `energy_ai_bishu`. */
  datatype OrderKind = Trusteeship | Bishu

  /** A row of either standing-order table; columns the other table lacks stay at their defaults. */
  datatype StandingOrder = StandingOrder(
    rid: int,
    botRid: int,
    walletAddr: string,
    status: int,
    isOpen: string,           // is_open_ai_trusteeship / is_open_bishu
    isBuy: string,            // 'N' idle, 'Y' wants energy, 'B' buying
    isNotice: string,
    comments: string,
    maxBuy: int,              // max_buy_quantity
    totalBuy: int,            // total_buy_quantity
    totalBuyEnergy: int,      // total_buy_energy_quantity
    totalBuyUsdt: int,        // total_buy_usdt, micro-units
    currentEnergy: int,
    currentBandwidth: int,
    perBuy: int,              // per_buy_energy_quantity (trusteeship)
    perBishu: int,            // per_bishu_energy_quantity (bishu)
    minEnergy: int,           // min_energy_quantity (trusteeship)
    energyDay: Option<int>,   // per_energy_day
    platformBotRid: int,
    pollGroup: string,
    lastBuyTime: string,
    createTime: string,
    tgUid: string)

  /** A row of `energy_platform_bot`: a receiving wallet watched for payments. */
  datatype Bot = Bot(rid: int, receiveWallet: string, status: int)

  /** Every outbound call the core makes, as the supplier or chain API would see it. */
  datatype Request =
    | NeeOrder(uid: string, address: string, amount: int, freezeDay: int, time: int)
    | RentOrder(apiKey: string, address: string, amount: int, rentType: string)
    | StakeOrder(privateKey: string, fromAddress: string, address: string, amount: int, permissionId: int)
    | TrongasOrder(username: string, password: string, amount: int, rentTime: int, address: string)
    | AccountQuery(address: string)
    | TrxTransfers(address: string, start: int, limit: int)
    | UsdtFirstPage(address: string, minTimestamp: int)
    | UsdtNextPage(url: string)

  /** A JSON scalar a supplier may put in its `status` or `code` field. */
  datatype Scalar = Num(n: int) | Str(s: string)

  /** What an order request gets back: no body (network or HTTP error), a body that is not
      JSON, or a JSON object whose relevant fields are kept. */
  datatype Reply =
    | NoResponse
    | Unparsable
    | Answer(status: Option<Scalar>, code: Option<Scalar>, msg: Option<string>, orderNo: string, useTrx: int)

  /** What the account lookup of a watched wallet gets back: nothing, a body that is not JSON,
      or an object that may carry a `bandwidth` section and the `activated` flag. */
  datatype AccountReply =
    | NoAccountReply
    | UnparsableAccount
    | Account(hasBandwidth: bool, activated: bool,
              freeNetRemaining: Option<int>, netRemaining: Option<int>, energyRemaining: Option<int>)

  /** The normalised result of one adapter call.  `orderNo` is the `order_no` key of the
      result ("" when the adapter does not return one), `useTrx` its `use_trx` key (0 when absent). */
  datatype AdapterResult = Placed(orderNo: string, useTrx: int) | Failed(message: string)

  /** A notification handed to the (external) message sender after a standing-order purchase. */
  datatype Notice = Notice(kind: OrderKind, rid: int)

  /** The clock readings a task uses: `now_date()`, `int(time.time())` and `thirteen_time()`. */
  datatype Clock = Clock(date: string, seconds: int, millis: int)
}
