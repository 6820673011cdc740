// A stand-in for the service catalog, whose own file is not part of this
// model: services and plans found by ID, each plan carrying the SQS
// properties that seed a queue's attributes.
module Catalog {
  import opened Errors

  /** The plan's SQS properties: the five tunables a plan may preset. */
  datatype SqsProperties = SqsProperties(
    delaySeconds: string,
    maximumMessageSize: string,
    messageRetentionPeriod: string,
    receiveMessageWaitTimeSeconds: string,
    visibilityTimeout: string)

  datatype ServicePlan = ServicePlan(id: string, sqsProperties: SqsProperties)

  datatype Service = Service(id: string, bindable: bool, planUpdateable: bool)

  datatype Catalog = Catalog(services: map<string, Service>, plans: map<string, ServicePlan>)

  function FindService(c: Catalog, serviceId: string): (r: Option<Service>)
    ensures r.Some? <==> serviceId in c.services
    ensures r.Some? ==> r.value == c.services[serviceId]
  {
    if serviceId in c.services then Some(c.services[serviceId]) else None
  }

  function FindServicePlan(c: Catalog, planId: string): (r: Option<ServicePlan>)
    ensures r.Some? <==> planId in c.plans
    ensures r.Some? ==> r.value == c.plans[planId]
  {
    if planId in c.plans then Some(c.plans[planId]) else None
  }
}
