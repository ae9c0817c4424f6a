/** The configuration values the core reads. How they are loaded from the
    environment is not modelled: they are plain values handed to the bot. */
module Settings {

  datatype Config = Config(
    riskRupees: real,            // RISK_RUPEES: the rupee budget for the stop distance
    rewardRupees: real,          // REWARD_RUPEES: the rupee budget for the first target
    trailRupees: real,           // TRAIL_RUPEES: the rupee budget for one trailing step
    riskMode: string,            // RISK_MODE: "PER_LOT" or anything else
    firstTargetSlMode: string,   // FIRST_TARGET_SL_MODE: "BUY" or anything else (midpoint)
    orderBuffer: real,           // ORDER_BUFFER: limit price = trigger - buffer
    maxModifyBeforeRecreate: int,// MAX_MODIFY_BEFORE_RECREATE
    throttleSeconds: real,       // THROTTLE_SECONDS
    minSlStep: real,             // MIN_SL_STEP
    // The last four are read as `config.SYMBOL`, `config.QUANTITY`,
    // `config.LOTS` and `config.PRODUCT`, which config.py does not define;
    // the model takes them as given.
    symbol: string,              // the traded contract
    quantity: int,               // order quantity
    lots: int,                   // number of lots in the position
    product: string              // the broker product code of stop orders
  )
}
