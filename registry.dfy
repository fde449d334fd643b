/**
 * What the handler sees of a registered service: a method table keyed by
 * method name and exact parameter classes, and the provider that maps
 * service names to services.
 */
module Registry {
  import opened Wrappers
  import opened Proto

  /** A method's name and its declared parameter classes, in order. */
  datatype MethodKey = MethodKey(name: string, parameterTypes: seq<TypeTag>)

  /** What invoking a method does: return a value, throw an error of its own, or be refused access. */
  datatype Outcome = Returns(value: Value) | Throws(cause: Throwable) | Inaccessible

  /** A service object, as seen through reflection: each method a function of its arguments. */
  type Service = map<MethodKey, seq<Value> -> Outcome>

  /** The registry of services by name. The handler only reads it. */
  class ServiceProvider {
    var services: map<string, Service>

    constructor (services: map<string, Service>)
      ensures this.services == services
    {
      this.services := services;
    }

    /** `getService(name)`: the service registered under `name`, or null. */
    function GetService(name: string): Option<Service>
      reads this
    {
      if name in services then Some(services[name]) else None
    }
  }
}
