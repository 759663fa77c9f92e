/** The rate table shared by the pre-merge gate and the live exporter. */
module Pricing {
  import opened Manifests

  datatype Rate = Rate(unit: string, price: real, flag: bool)

  datatype Rates = Rates(cpu: Rate, memory: Rate, storage: Rate)

  /** What a container that declares no requests is assumed to reserve. */
  datatype MissingRequests = MissingRequests(cpu: Text, memory: Text, flag: bool)

  datatype Metadata = Metadata(name: string, version: int, source: string, retrievedAt: string)

  datatype Spec = Spec(
    currency: string,
    hoursPerMonth: real,
    rates: Rates,
    unknownResource: Rate,
    missingRequests: MissingRequests)

  datatype Table = Table(metadata: Metadata, spec: Spec)

  /** Zero rates are allowed; negative ones would make added capacity look cheaper. */
  predicate Validates(t: Table) {
    && t.spec.hoursPerMonth > 0.0
    && t.spec.rates.cpu.price >= 0.0
    && t.spec.rates.memory.price >= 0.0
    && t.spec.rates.storage.price >= 0.0
    && t.spec.currency != ""
  }

  function HourlyUSD(t: Table, cpuCores: real, memoryGiB: real, storageGiB: real): real {
    cpuCores * t.spec.rates.cpu.price + memoryGiB * t.spec.rates.memory.price + storageGiB * t.spec.rates.storage.price
  }

  function MonthlyUSD(t: Table, cpuCores: real, memoryGiB: real, storageGiB: real): real {
    HourlyUSD(t, cpuCores, memoryGiB, storageGiB) * t.spec.hoursPerMonth
  }

  /** Whether the two tables could price the same manifests differently. Provenance and the
      unused unknown-resource rate are not compared. */
  predicate RatesChanged(base: Table, head: Table) {
    || base.spec.rates != head.spec.rates
    || base.spec.hoursPerMonth != head.spec.hoursPerMonth
    || base.spec.missingRequests != head.spec.missingRequests
    || base.spec.currency != head.spec.currency
  }

  /** A month of `n` equal reservations costs `n` times a month of one. */
  lemma {:induction false} MonthlyScales(t: Table, cpu: real, memory: real, storage: real, n: real)
    ensures MonthlyUSD(t, cpu * n, memory * n, storage * n) == MonthlyUSD(t, cpu, memory, storage) * n
  {
    var c, m, s := t.spec.rates.cpu.price, t.spec.rates.memory.price, t.spec.rates.storage.price;
    Reassociate(cpu, c, n);
    Reassociate(memory, m, n);
    Reassociate(storage, s, n);
    var hour := HourlyUSD(t, cpu, memory, storage);
    assert HourlyUSD(t, cpu * n, memory * n, storage * n) == hour * n by {
      Distribute(cpu * c, memory * m, n);
      Distribute(cpu * c + memory * m, storage * s, n);
    }
    Reassociate(hour, t.spec.hoursPerMonth, n);
  }

  lemma {:induction false} Reassociate(x: real, y: real, n: real)
    ensures (x * n) * y == (x * y) * n
  {
  }

  lemma {:induction false} Distribute(x: real, y: real, n: real)
    ensures (x + y) * n == x * n + y * n
  {
  }

  /** Under a valid table, reserving nothing negative costs nothing negative. */
  lemma {:induction false} MonthlyNonNegative(t: Table, cpu: real, memory: real, storage: real)
    requires Validates(t)
    requires cpu >= 0.0 && memory >= 0.0 && storage >= 0.0
    ensures MonthlyUSD(t, cpu, memory, storage) >= 0.0
  {
    assert cpu * t.spec.rates.cpu.price >= 0.0;
    assert memory * t.spec.rates.memory.price >= 0.0;
    assert storage * t.spec.rates.storage.price >= 0.0;
  }
}
