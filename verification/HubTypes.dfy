/** What the hub stores, what it can see of the chain, and the messages it emits. */
module HubTypes {
  import opened Allocation
  import opened Release
  import opened Sums

  type User = string

  /** A key of the wait list: what `user` has asked to unbond in `batch`. */
  datatype Claim = Claim(user: User, batch: nat)

  datatype State = State(rate: nat, bonded: nat, prevBalance: nat, lastUnbonded: nat, lastProcessed: nat)

  datatype CurrentBatch = CurrentBatch(id: nat, requested: nat)

  /** The storage of the hub contract. */
  datatype Storage = Storage(
    state: State, batch: CurrentBatch, history: map<nat, UnbondHistory>, wait: map<Claim, nat>)

  /** The hub's surroundings: token supply, its delegations, its coin balance and the block time. */
  datatype Chain = Chain(supply: nat, stakes: map<Address, nat>, liquid: nat, now: nat)

  datatype World = World(storage: Storage, chain: Chain)

  datatype Message =
    | Delegate(validator: Address, amount: nat)
    | Undelegate(validator: Address, amount: nat)
    | Redelegate(source: Address, target: Address, amount: nat)
    | Mint(amount: nat)
    | Burn(amount: nat)
    | Send(receiver: User, amount: nat)

  ghost function Staked(chain: Chain): nat {
    SumMap(chain.stakes)
  }
}
