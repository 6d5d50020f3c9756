/** What the retry reads from a message, and the clone that it sends. */
module BackoffClone {
  import opened Common
  import opened BackoffDelay

  /** A user property as JavaScript has it. `value` of a text is what `Number` makes of it, if a number. */
  datatype Raw = Undefined | Null | Bool(b: bool) | NotANumber | Number(n: real) | Text(s: string, value: Option<real>)

  predicate Falsy(raw: Raw) {
    match raw
    case Undefined => true
    case Null => true
    case Bool(b) => !b
    case NotANumber => true
    case Number(n) => n == 0.0
    case Text(s, _) => s == ""
  }

  /** `== 0`, on a falsy value. */
  predicate LooselyZero(raw: Raw)
    requires Falsy(raw)
  {
    raw.Bool? || raw.Number? || raw.Text?
  }

  function ToNumber(raw: Raw): Option<real> {
    match raw
    case Bool(b) => Some(if b then 1.0 else 0.0)
    case Number(n) => Some(n)
    case Text(_, value) => value
    case Null => Some(0.0)
    case _ => None
  }

  /** None stands for the answer `false`. */
  function ExtractRetryCount(raw: Raw): Option<real> {
    if Falsy(raw) then (if LooselyZero(raw) then Some(0.0) else None) else ToNumber(raw)
  }

  /** There is no count exactly when the property is missing, null, not a number, or a text that is none. */
  lemma NoCountExactly(raw: Raw)
    ensures ExtractRetryCount(raw) == None <==>
      raw.Undefined? || raw.Null? || raw.NotANumber? || (raw.Text? && raw.s != "" && raw.value.None?)
  {
  }

  /** Except for null, the count is what JavaScript converts the property to. */
  lemma CountIsNumber(raw: Raw)
    requires raw.Text? && raw.s == "" ==> raw.value == Some(0.0)
    ensures !raw.Null? ==> ExtractRetryCount(raw) == ToNumber(raw)
  {
  }

  /** A count that came with the message may be any number. `power` is what `Math.pow` makes of the factor and
      the next count. */
  predicate PowerOf(c: Config, count: real, power: real) {
    count >= 0.0 && count.Floor as real == count ==> power == Pow(Factor(c), count.Floor + 1)
  }

  function DelayAt(c: Config, count: real, power: real, draw: real): real {
    if count == c.retryCount as real then 0.0
    else
      var middle :=
        if c.delayType == Exponential then HalfOf(power - 1.0, c.delay) else c.delay * c.factor * (count + 1.0);
      Distorted(middle, Percent(c.distortFactor, draw))
  }

  /** For the counts that the retry itself writes this is the delay of the iteration. */
  lemma DelayAtIteration(c: Config, iteration: nat, power: real, draw: real)
    requires PowerOf(c, iteration as real, power)
    ensures DelayAt(c, iteration as real, power, draw) == BackOffTime(c, iteration, draw)
  {
    assert (iteration as real).Floor == iteration;
    hide Pow, Factor, Percent, HalfOf, Distorted;
  }

  class UserProperties {
    var values: map<string, Raw>

    constructor ()
      ensures values == map[]
    {
      values := map[];
    }
  }

  function Property(values: map<string, Raw>, key: string): Raw { if key in values then values[key] else Undefined }

  class Message {
    const body: string
    var userProperties: UserProperties?
    var scheduledEnqueueTime: Option<real>

    constructor (body: string, userProperties: UserProperties?, scheduledEnqueueTime: Option<real>)
      ensures this.body == body && this.userProperties == userProperties
        && this.scheduledEnqueueTime == scheduledEnqueueTime
    {
      this.body, this.userProperties, this.scheduledEnqueueTime := body, userProperties, scheduledEnqueueTime;
    }

    ghost function RetryCount(key: string): Option<real>
      reads this, userProperties
    {
      if userProperties == null then None else ExtractRetryCount(Property(userProperties.values, key))
    }

    /** The clone shares the object that holds the user properties. */
    method Clone() returns (clone: Message)
      ensures fresh(clone) && clone.body == body && clone.userProperties == userProperties
      ensures clone.scheduledEnqueueTime == scheduledEnqueueTime
    {
      clone := new Message(body, userProperties, scheduledEnqueueTime);
    }

    /** The clone carries the next count and the time of its next delivery. Unless the message has no user
        properties, the count of the failed message itself changes with it, and nothing else of it. */
    method CreateBackoffClone(count: real, key: string, config: Config, power: real, draw: real, now: real)
      returns (backOffDelay: real, clone: Message)
      requires Draw(draw) && PowerOf(config, count, power)
      modifies userProperties
      ensures fresh(clone) && clone.body == body && clone.userProperties != null
      ensures clone.RetryCount(key) == Some(count + 1.0)
      ensures backOffDelay == DelayAt(config, count, power, draw)
      ensures clone.scheduledEnqueueTime == Some(now + backOffDelay)
      ensures forall iteration: nat :: count == iteration as real ==>
        backOffDelay == BackOffTime(config, iteration, draw)
      ensures userProperties == old(userProperties) && scheduledEnqueueTime == old(scheduledEnqueueTime)
      ensures userProperties == null ==> fresh(clone.userProperties)
      ensures userProperties != null ==> clone.userProperties == userProperties
      ensures userProperties != null ==>
        userProperties.values == old(userProperties.values)[key := Number(count + 1.0)]
    {
      clone := Clone();
      if clone.userProperties == null {
        clone.userProperties := new UserProperties();
      }
      clone.userProperties.values := clone.userProperties.values[key := Number(count + 1.0)];
      backOffDelay := DelayAt(config, count, power, draw);
      clone.scheduledEnqueueTime := Some(now + backOffDelay);
      forall iteration: nat | count == iteration as real ensures backOffDelay == BackOffTime(config, iteration, draw) {
        DelayAtIteration(config, iteration, power, draw);
      }
      hide DelayAt, BackOffTime, PowerOf;
    }
  }
}
