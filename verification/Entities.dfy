// The entities of the subgraph. Amounts are integers in units of 10^-18, so an
// entity's raw and decimal fields for the same amount are one field here.
module Entities {
  import opened Wrappers

  type Address = nat
  type TxId = nat

  datatype TroveStatus = Open | ClosedByOwner | ClosedByLiquidation | ClosedByRedemption

  datatype TroveOperation =
    | OpenTrove
    | CloseTrove
    | AdjustTrove
    | AccrueRewards
    | LiquidateInNormalMode
    | LiquidateInRecoveryMode
    | RedeemCollateral
  {
    predicate IsBorrowerOperation() {
      OpenTrove? || CloseTrove? || AdjustTrove?
    }

    predicate IsLiquidation() {
      LiquidateInNormalMode? || LiquidateInRecoveryMode?
    }

    predicate IsRedemption() {
      RedeemCollateral?
    }
  }

  datatype Counts = Counts(systemStates: int, transactions: int, changes: int, liquidations: int, redemptions: int)

  datatype TroveCounts = TroveCounts(open: int, liquidated: int, redeemed: int, closedByOwner: int, total: int)

  datatype StakeCounts = StakeCounts(total: int, active: int)

  datatype PerStake = PerStake(collateral: int, debt: int)

  datatype FeesPaid = FeesPaid(borrowing: int, redemption: int)

  // The single Global record; reading it before it is first saved gives NEW_GLOBAL.
  datatype Global = Global(
    count: Counts,
    troves: TroveCounts,
    stakes: StakeCounts,
    redistributed: PerStake,
    feesPaid: FeesPaid,
    currentSystemState: Option<int>,
    currentLiquidation: Option<int>,
    currentRedemption: Option<int>,
    tmpDepositUpdate: Option<int>
  )

  const NEW_GLOBAL: Global := Global(
    Counts(0, 0, 0, 0, 0), TroveCounts(0, 0, 0, 0, 0), StakeCounts(0, 0), PerStake(0, 0), FeesPaid(0, 0),
    None, None, None, None)

  datatype SystemState = SystemState(
    sequenceNumber: int,
    price: Option<int>,
    totalCollateral: int,
    totalDebt: int,
    totalCollateralRatio: Option<int>,
    tokensInStabilityPool: int,
    collSurplusPoolBalance: int,
    totalProtocolTokensStaked: int
  )

  function NewSystemState(sequenceNumber: int): SystemState {
    SystemState(sequenceNumber, None, 0, 0, None, 0, 0, 0)
  }

  datatype User = User(collSurplus: int, stake: Option<Address>)

  const NEW_USER: User := User(0, None)

  datatype Trove = Trove(
    status: TroveStatus,
    collateral: int,
    debt: int,
    stake: int,
    snapshot: PerStake,
    sortKey: Option<int>
  )

  const NEW_TROVE: Trove := Trove(Open, 0, 0, 0, PerStake(0, 0), None)

  datatype Transaction = Transaction(sequenceNumber: int)

  datatype Liquidation = Liquidation(
    sequenceNumber: int,
    transaction: TxId,
    liquidator: Address,
    collateral: int,
    debt: int,
    collateralGasCompensation: int,
    tokenGasCompensation: int
  )

  datatype Redemption = Redemption(
    sequenceNumber: int,
    transaction: TxId,
    redeemer: Address,
    attempted: int,
    actual: int,
    collateral: int,
    partial: bool,
    fee: int
  )

  datatype TroveDelta = TroveDelta(
    trove: Address,
    operation: TroveOperation,
    collateralBefore: int,
    collateralAfter: int,
    debtBefore: int,
    debtAfter: int,
    ratioBefore: Option<int>,
    ratioAfter: Option<int>,
    liquidation: Option<int>,
    redemption: Option<int>,
    borrowingFee: Option<int>
  ) {
    function CollateralChange(): int { collateralAfter - collateralBefore }

    function DebtChange(): int { debtAfter - debtBefore }
  }

  datatype DepositOperation = DepositTokens | WithdrawTokens | WithdrawCollateralGain

  datatype StakeOperation = StakeCreated | StakeIncreased | StakeDecreased | StakeRemoved | GainsWithdrawn

  datatype Detail =
    | TroveChange(delta: TroveDelta)
    | DepositChange(depositor: Address, depositOperation: DepositOperation, before: int, after: int,
                    collateralGain: Option<int>)
    | PriceChange(priceChange: int)
    | CollSurplusChange(user: Address, before: int, after: int)
    | StakeChange(staker: Address, stakeOperation: StakeOperation, before: int, after: int, issuanceGain: int,
                  redemptionGain: int)

  datatype Change = Change(
    sequenceNumber: int,
    transaction: TxId,
    systemStateBefore: int,
    systemStateAfter: int,
    detail: Detail
  )

  datatype Body =
    | TroveUpdated(operation: TroveOperation, borrower: Address, collateral: nat, debt: nat, stake: nat)
    | TroveLiquidated(borrower: Address)
    | LiquidationFinished(liquidatedCollateral: nat, liquidatedDebt: nat, collateralGas: nat, debtGas: nat)
    | RedemptionFinished(attempted: nat, actual: nat, sent: nat, fee: nat)
    | LTermsUpdated(lCollateral: nat, lDebt: nat)
    | BorrowingFeePaid(fee: nat)
    | PriceUpdated(price: nat)
    | UserDepositChanged(depositor: Address, newDeposit: nat)
    | GainWithdrawn(depositor: Address, collateral: nat, loss: nat)
    | CollBalanceUpdated(account: Address, balance: nat)
    | StakeChanged(staker: Address, newStake: nat)
    | StakeGainsWithdrawn(staker: Address, debtTokenGain: nat, collateralGain: nat)
  {
    // Events of the trove manager and of borrower operations.
    predicate IsTroveEvent() {
      || TroveUpdated? || TroveLiquidated? || LiquidationFinished? || RedemptionFinished?
      || LTermsUpdated? || BorrowingFeePaid?
    }

    // Events of the stability pool.
    predicate IsPoolEvent() {
      UserDepositChanged? || GainWithdrawn?
    }

    // Events of protocol token staking.
    predicate IsStakeEvent() {
      StakeChanged? || StakeGainsWithdrawn?
    }
  }

  datatype Event = Event(tx: TxId, sender: Address, body: Body)

  // The contents of the whole store. Changes of every kind share one sequence of
  // numbers, and so one map.
  datatype Db = Db(
    global: Global,
    systemStates: map<int, SystemState>,
    changes: map<int, Change>,
    transactions: map<TxId, Transaction>,
    users: map<Address, User>,
    troves: map<Address, Trove>,
    deposits: map<Address, int>,
    stakes: map<Address, int>,
    liquidations: map<int, Liquidation>,
    redemptions: map<int, Redemption>
  )

  // A store in which nothing has been saved yet.
  predicate Fresh(db: Db) {
    var g := db.global;
    && g.count.systemStates == 0 && g.count.transactions == 0 && g.count.changes == 0
    && g.count.liquidations == 0 && g.count.redemptions == 0
    && g.troves.open == 0 && g.troves.liquidated == 0 && g.troves.redeemed == 0
    && g.troves.closedByOwner == 0 && g.troves.total == 0
    && g.stakes.total == 0 && g.stakes.active == 0
    && g.redistributed.collateral == 0 && g.redistributed.debt == 0
    && g.feesPaid.borrowing == 0 && g.feesPaid.redemption == 0
    && g.currentSystemState == None && g.currentLiquidation == None && g.currentRedemption == None
    && g.tmpDepositUpdate == None
    && db.systemStates == map[] && db.changes == map[] && db.transactions == map[] && db.users == map[]
    && db.troves == map[] && db.deposits == map[] && db.stakes == map[]
    && db.liquidations == map[] && db.redemptions == map[]
  }
}
