/** The columns and constants that the modelled tables share. */
module Schema {
  import opened Collections
  import opened LondonTime

  type NotificationId = nat
  type ServiceId = nat
  type TemplateId = nat
  type JobId = nat

  datatype NotificationType = Sms | Email | Letter | Messagebox

  datatype KeyType = Normal | Team | Test

  datatype Status =
    | Cancelled | Created | Sending | Sent | Delivered | Pending | Failed
    | TechnicalFailure | TemporaryFailure | PermanentFailure
    | PendingVirusCheck | ValidationFailed | VirusScanFailed | ReturnedLetter

  /** NOTIFICATION_STATUS_TYPES_COMPLETED */
  predicate Completed(status: Status) {
    status in {Sent, Delivered, Failed, TechnicalFailure, TemporaryFailure, PermanentFailure,
               ReturnedLetter, Cancelled, ValidationFailed}
  }

  /** The columns that notifications and notification_history have in common, and that
      notifications_all_time_view reads. `other` holds those that no query modelled here uses. */
  datatype ViewRow = ViewRow(
    id: NotificationId,
    jobId: Option<JobId>,
    jobRowNumber: Option<nat>,
    serviceId: ServiceId,
    templateId: TemplateId,
    keyType: KeyType,
    notificationType: NotificationType,
    createdAt: Instant,
    sentBy: Option<string>,
    billableUnits: nat,
    international: bool,
    rateMultiplier: Option<nat>,
    status: Status,
    postage: Option<string>,
    other: string)

  /** The primary key of ft_billing. */
  datatype FtBillingKey = FtBillingKey(
    bstDate: Date,
    templateId: TemplateId,
    serviceId: ServiceId,
    notificationType: NotificationType,
    provider: string,
    rateMultiplier: nat,
    international: bool,
    rate: real,
    postage: string)

  datatype FtBillingValue = FtBillingValue(billableUnits: nat, notificationsSent: nat)

  type FtBillingRow = Entry<FtBillingKey, FtBillingValue>

  type FtBilling = map<FtBillingKey, FtBillingValue>
}
