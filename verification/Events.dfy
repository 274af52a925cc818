/** The fourteen ledger events. */
module Events {
  import opened Model

  datatype EventBody =
    | AccountOpened(initialCash: nat)
    | OrderIntentCreated(intent: OrderIntent)
    | OrderSubmitted(intentId: IntentId, backendOrderId: Identifier)
    | OrderAcknowledged(intentId: IntentId)
    | FillReceived(fill: FillData)
    | OrderRejected(intentId: IntentId, reason: Text)
    | OrderCancelled(intentId: IntentId, reason: Text)
    | OrderOutcomeUnknown(intentId: IntentId, reason: Text)
    | WeatherObservationRecorded(observation: Observation)
    | ResolutionEvidenceRecorded(evidence: ResolutionEvidence)
    | MarketResolved(resolution: MarketResolution)
    | PositionSettled(key: PositionKey, fee: nat)
    | RiskScopeRegistered(scope: RiskScope)
    | PortfolioValuationRecorded(valuation: PortfolioValuation)

  datatype LedgerEvent = LedgerEvent(eventId: Identifier, occurredAt: Timestamp, body: EventBody)
}
