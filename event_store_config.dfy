/**
  EventStoreConfig: the immutable settings of the MongoDB event store (how
  it represents time, the transaction options it starts transactions with,
  whether reads run in a transaction, and the function that sets query
  options), with the mutable Builder that assembles one.

  A Java `null` argument is an `Option` that is `None`. The driver's
  TransactionOptions and the query-options function are opaque values here:
  only their equality and their defaults matter to this class.
*/
module StoreConfig {
  import opened Wrappers
  import opened TimeRepresentations

  /** The driver's transaction options: the settings a transaction may fix, each unset by default. */
  datatype TransactionOptions = TransactionOptions(
    readConcern: Option<string>,
    writeConcern: Option<string>,
    readPreference: Option<string>,
    maxCommitTimeMillis: Option<nat>)

  /** What `TransactionOptions.builder().build()` gives: nothing set. */
  const DEFAULT_TRANSACTION_OPTIONS: TransactionOptions := TransactionOptions(None, None, None, None)

  /**
    A function from a query to a query, compared as Java compares function
    objects: the identity function is one value, every other function is
    told apart by the object it is.
  */
  datatype QueryOptions = IdentityQueryOptions | QueryOptionsFunction(reference: nat)

  const ENABLE_TRANSACTIONAL_READS_BY_DEFAULT: bool := true
  const DEFAULT_QUERY_OPTIONS_FUNCTION: QueryOptions := IdentityQueryOptions

  datatype EventStoreConfig = EventStoreConfig(
    transactionOptions: TransactionOptions,
    timeRepresentation: TimeRepresentation,
    enableTransactionalReads: bool,
    queryOptions: QueryOptions)

  /** The NullPointerException the constructor throws for a missing time representation. */
  datatype ConfigError = NullTimeRepresentation

  /**
    The four-argument constructor: the time representation is required, a
    missing transaction options or query-options function is replaced by its
    default, and the flag is taken as given.
  */
  function Create(timeRepresentation: Option<TimeRepresentation>, transactionOptions: Option<TransactionOptions>,
                  enableTransactionalReads: bool, queryOptions: Option<QueryOptions>): (r: Result<EventStoreConfig, ConfigError>)
    ensures r.Failure? <==> timeRepresentation.None?
    ensures r.Failure? ==> r.error == NullTimeRepresentation
    ensures r.Success? ==> r.value.timeRepresentation == timeRepresentation.value
    ensures r.Success? ==> r.value.enableTransactionalReads == enableTransactionalReads
    ensures r.Success? && transactionOptions.None? ==> r.value.transactionOptions == DEFAULT_TRANSACTION_OPTIONS
    ensures r.Success? && transactionOptions.Some? ==> r.value.transactionOptions == transactionOptions.value
    ensures r.Success? && queryOptions.None? ==> r.value.queryOptions == DEFAULT_QUERY_OPTIONS_FUNCTION
    ensures r.Success? && queryOptions.Some? ==> r.value.queryOptions == queryOptions.value
  {
    if timeRepresentation.None? then
      Failure(NullTimeRepresentation)
    else
      var options := if transactionOptions.None? then DEFAULT_TRANSACTION_OPTIONS else transactionOptions.value;
      var query := if queryOptions.None? then DEFAULT_QUERY_OPTIONS_FUNCTION else queryOptions.value;
      Success(EventStoreConfig(options, timeRepresentation.value, enableTransactionalReads, query))
  }

  /** The two-argument constructor: transactional reads and identity query options. */
  function OfTimeRepresentationAndTransactionOptions(timeRepresentation: Option<TimeRepresentation>,
                                                     transactionOptions: Option<TransactionOptions>): (r: Result<EventStoreConfig, ConfigError>)
    ensures r.Failure? <==> timeRepresentation.None?
    ensures r.Success? ==> r.value.timeRepresentation == timeRepresentation.value
    ensures r.Success? ==> r.value.enableTransactionalReads
    ensures r.Success? ==> r.value.queryOptions == IdentityQueryOptions
    ensures r.Success? ==>
      r.value.transactionOptions == (if transactionOptions.Some? then transactionOptions.value else DEFAULT_TRANSACTION_OPTIONS)
  {
    Create(timeRepresentation, transactionOptions, ENABLE_TRANSACTIONAL_READS_BY_DEFAULT, Some(DEFAULT_QUERY_OPTIONS_FUNCTION))
  }

  /** The one-argument constructor: also the default transaction options. */
  function OfTimeRepresentation(timeRepresentation: Option<TimeRepresentation>): (r: Result<EventStoreConfig, ConfigError>)
    ensures r.Failure? <==> timeRepresentation.None?
    ensures r.Success? ==>
      r.value == EventStoreConfig(DEFAULT_TRANSACTION_OPTIONS, timeRepresentation.value, true, IdentityQueryOptions)
  {
    OfTimeRepresentationAndTransactionOptions(timeRepresentation, None)
  }

  /**
    `equals`: true for the same object, false for `null` or an object of
    another class (both `None` here), otherwise field by field.
  */
  function Equals(c: EventStoreConfig, o: Option<EventStoreConfig>): (r: bool)
    ensures r <==> o == Some(c)
  {
    if o.None? then false
    else
      var that := o.value;
      && c.enableTransactionalReads == that.enableTransactionalReads
      && c.transactionOptions == that.transactionOptions
      && c.timeRepresentation == that.timeRepresentation
      && c.queryOptions == that.queryOptions
  }

  /** `equals` is an equivalence on configs, and no config equals `null`. */
  lemma EqualsIsEquivalence(a: EventStoreConfig, b: EventStoreConfig, c: EventStoreConfig)
    ensures Equals(a, Some(a))
    ensures !Equals(a, None)
    ensures Equals(a, Some(b)) <==> Equals(b, Some(a))
    ensures Equals(a, Some(b)) && Equals(b, Some(c)) ==> Equals(a, Some(c))
  {
  }

  /** Every config is what the constructor makes of its own fields. */
  lemma CreateFromFields(c: EventStoreConfig)
    ensures Create(Some(c.timeRepresentation), Some(c.transactionOptions), c.enableTransactionalReads, Some(c.queryOptions))
         == Success(c)
  {
  }

  /** Passing the defaults explicitly is the same as passing `null`. */
  lemma ExplicitDefaultsAreNull(timeRepresentation: Option<TimeRepresentation>, enableTransactionalReads: bool)
    ensures Create(timeRepresentation, Some(DEFAULT_TRANSACTION_OPTIONS), enableTransactionalReads, Some(DEFAULT_QUERY_OPTIONS_FUNCTION))
         == Create(timeRepresentation, None, enableTransactionalReads, None)
  {
  }

  /** The mutable builder: each setter changes its own field and returns the builder itself. */
  class Builder {
    var transactionOptions: Option<TransactionOptions>
    var timeRepresentation: Option<TimeRepresentation>
    var enableTransactionalReads: bool
    var queryOptions: Option<QueryOptions>

    /** A fresh builder: nothing set, transactional reads on, identity query options. */
    constructor()
      ensures transactionOptions == None && timeRepresentation == None
      ensures enableTransactionalReads == ENABLE_TRANSACTIONAL_READS_BY_DEFAULT
      ensures queryOptions == Some(DEFAULT_QUERY_OPTIONS_FUNCTION)
    {
      transactionOptions := None;
      timeRepresentation := None;
      enableTransactionalReads := ENABLE_TRANSACTIONAL_READS_BY_DEFAULT;
      queryOptions := Some(DEFAULT_QUERY_OPTIONS_FUNCTION);
    }

    method SetTransactionOptions(options: Option<TransactionOptions>) returns (b: Builder)
      modifies this`transactionOptions
      ensures b == this
      ensures transactionOptions == options
      ensures timeRepresentation == old(timeRepresentation)
      ensures enableTransactionalReads == old(enableTransactionalReads)
      ensures queryOptions == old(queryOptions)
    {
      transactionOptions := options;
      b := this;
    }

    method SetTimeRepresentation(representation: Option<TimeRepresentation>) returns (b: Builder)
      modifies this`timeRepresentation
      ensures b == this
      ensures timeRepresentation == representation
      ensures transactionOptions == old(transactionOptions)
      ensures enableTransactionalReads == old(enableTransactionalReads)
      ensures queryOptions == old(queryOptions)
    {
      timeRepresentation := representation;
      b := this;
    }

    method SetTransactionalReads(enable: bool) returns (b: Builder)
      modifies this`enableTransactionalReads
      ensures b == this
      ensures enableTransactionalReads == enable
      ensures transactionOptions == old(transactionOptions)
      ensures timeRepresentation == old(timeRepresentation)
      ensures queryOptions == old(queryOptions)
    {
      enableTransactionalReads := enable;
      b := this;
    }

    method SetQueryOptions(options: Option<QueryOptions>) returns (b: Builder)
      modifies this`queryOptions
      ensures b == this
      ensures queryOptions == options
      ensures transactionOptions == old(transactionOptions)
      ensures timeRepresentation == old(timeRepresentation)
      ensures enableTransactionalReads == old(enableTransactionalReads)
    {
      queryOptions := options;
      b := this;
    }

    /**
      `build`: the four-argument constructor applied to the fields, so it
      fails without a time representation and otherwise carries the time
      representation and the flag over as they are.
    */
    method Build() returns (r: Result<EventStoreConfig, ConfigError>)
      ensures r == Create(timeRepresentation, transactionOptions, enableTransactionalReads, queryOptions)
      ensures r.Failure? <==> timeRepresentation.None?
      ensures r.Success? ==> r.value.timeRepresentation == timeRepresentation.value
      ensures r.Success? ==> r.value.enableTransactionalReads == enableTransactionalReads
    {
      r := Create(timeRepresentation, transactionOptions, enableTransactionalReads, queryOptions);
    }
  }

  /** A builder that was never given a time representation cannot build. */
  method BuildFreshBuilder() returns (r: Result<EventStoreConfig, ConfigError>)
    ensures r == Failure(NullTimeRepresentation)
  {
    var builder := new Builder();
    r := builder.Build();
  }

  /** A builder given only a time representation builds what the one-argument constructor makes. */
  method BuildWithTimeRepresentation(representation: TimeRepresentation) returns (r: Result<EventStoreConfig, ConfigError>)
    ensures r == OfTimeRepresentation(Some(representation))
  {
    var builder := new Builder();
    builder := builder.SetTimeRepresentation(Some(representation));
    r := builder.Build();
  }

  /** Setting every field of a builder from a config builds that config back, whatever order the setters run in. */
  method BuildFromConfig(c: EventStoreConfig) returns (r: Result<EventStoreConfig, ConfigError>)
    ensures r == Success(c)
  {
    var builder := new Builder();
    builder := builder.SetQueryOptions(Some(c.queryOptions));
    builder := builder.SetTransactionalReads(c.enableTransactionalReads);
    builder := builder.SetTimeRepresentation(Some(c.timeRepresentation));
    builder := builder.SetTransactionOptions(Some(c.transactionOptions));
    r := builder.Build();
    CreateFromFields(c);
  }
}
