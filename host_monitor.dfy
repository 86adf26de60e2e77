/**
 * `HostMonitor`: one periodic observable of host metrics per period, created on
 * the first request for that period and handed out again on every later one.
 */
module HostMonitoring {
  import opened ClrIntegers

  /** A `TimeSpan`, as its count of 100-nanosecond ticks. */
  type TimeSpan = Int64

  /** The host metrics collector; its code is not part of this model. */
  class HostMetricsCollector {
    constructor ()
    {
    }
  }

  /**
   * `PeriodicObservable<HostMetrics>`, reduced to what it is built from: the
   * period and the collector whose `Collect` it calls. Its timer and subscribers
   * are not part of this model.
   */
  class PeriodicObservable {
    const period: TimeSpan
    const collector: HostMetricsCollector

    constructor (period: TimeSpan, collector: HostMetricsCollector)
      ensures this.period == period && this.collector == collector
    {
      this.period := period;
      this.collector := collector;
    }
  }

  class HostMonitor {
    /** The dictionary of observables by period. */
    var observables: map<TimeSpan, PeriodicObservable>

    /**
     * Every observable in the dictionary was built for the period it is stored
     * under, and no two of them share a collector.
     */
    ghost predicate Valid()
      reads this
    {
      && (forall p :: p in observables ==> observables[p].period == p)
      && (forall p, q :: p in observables && q in observables && p != q ==>
            observables[p].collector != observables[q].collector)
    }

    constructor ()
      ensures Valid() && observables == map[]
    {
      observables := map[];
    }

    /**
     * `observables.GetOrAdd(period, p => new PeriodicObservable(p, new HostMetricsCollector().Collect))`:
     * the observable stored for `period`, created with a fresh collector and
     * stored if there was none. No other entry is touched.
     */
    method ObserveMetrics(period: TimeSpan) returns (o: PeriodicObservable)
      requires Valid()
      modifies this
      ensures Valid()
      ensures period in observables && observables[period] == o && o.period == period
      ensures period in old(observables) ==> observables == old(observables) && o == old(observables)[period]
      ensures period !in old(observables) ==>
        && fresh(o) && fresh(o.collector)
        && observables == old(observables)[period := o]
      ensures forall p :: p in old(observables) ==> p in observables && observables[p] == old(observables)[p]
      ensures observables.Keys == old(observables).Keys + {period}
    {
      if period in observables {
        o := observables[period];
      } else {
        var collector := new HostMetricsCollector();
        o := new PeriodicObservable(period, collector);
        observables := observables[period := o];
      }
    }
  }

  /** Two requests for the same period get the identical observable. */
  method ObserveSamePeriodTwice(monitor: HostMonitor, period: TimeSpan) returns (first: PeriodicObservable, second: PeriodicObservable)
    requires monitor.Valid()
    modifies monitor
    ensures monitor.Valid()
    ensures first == second
  {
    first := monitor.ObserveMetrics(period);
    second := monitor.ObserveMetrics(period);
  }

  /**
   * Requests for different periods get different observables, each built for
   * its own period and calling its own collector.
   */
  method ObserveTwoPeriods(monitor: HostMonitor, period: TimeSpan, other: TimeSpan)
    returns (first: PeriodicObservable, second: PeriodicObservable)
    requires monitor.Valid() && period != other
    modifies monitor
    ensures monitor.Valid()
    ensures first != second && first.collector != second.collector
    ensures first.period == period && second.period == other
  {
    first := monitor.ObserveMetrics(period);
    second := monitor.ObserveMetrics(other);
  }
}
