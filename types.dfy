/** The application's records, as the type definitions declare them. Timestamps other
    than an inspection's creation time, and avatar URLs, are left out. */
module Types {
  import opened Wrappers

  datatype User = User(id: string, email: string, fullName: Option<string>)

  datatype Company = Company(
    id: string,
    name: string,
    email: Option<string>,
    phone: Option<string>,
    address: Option<string>,
    logoUrl: Option<string>)

  datatype MemberRole = Owner | Admin | Inspector

  datatype CompanyMember = CompanyMember(
    id: string,
    companyId: string,
    userId: string,
    role: MemberRole,
    isActive: bool)

  datatype InspectionStatus = Draft | Scheduled | InProgress | Completed | Cancelled

  datatype Inspection = Inspection(
    id: string,
    companyId: string,
    inspectorId: string,
    projectName: string,
    projectAddress: Option<string>,
    clientName: Option<string>,
    clientEmail: Option<string>,
    scheduledDate: Option<string>,
    completedDate: Option<string>,
    status: InspectionStatus,
    notes: Option<string>,
    completionPercentage: int,
    createdAt: string,
    inspector: Option<User>,
    hcpJobId: Option<string>,
    hcpJobNumber: Option<string>,
    hcpAssignedEmployee: Option<string>,
    hcpSyncedAt: Option<string>)

  datatype ItemStatus = Pending | Satisfactory | Recommended | Unsafe | NotApplicable

  /** The string the database stores for an item status. */
  function ItemStatusName(s: ItemStatus): string
  {
    match s
    case Pending => "pending"
    case Satisfactory => "satisfactory"
    case Recommended => "recommended"
    case Unsafe => "unsafe"
    case NotApplicable => "na"
  }

  datatype ItemType = StatusItem | MeasurementItem

  /** A length in feet and inches. */
  datatype MeasurementValue = MeasurementValue(feet: int, inches: int)

  datatype InspectionPhoto = InspectionPhoto(
    id: string,
    itemId: string,
    photoUrl: string,
    caption: Option<string>)

  /** An inspection item; `photos` is empty when the optional list is absent. */
  datatype InspectionItem = InspectionItem(
    id: string,
    inspectionId: string,
    category: string,
    name: string,
    description: Option<string>,
    status: ItemStatus,
    itemType: ItemType,
    value: Option<MeasurementValue>,
    notes: Option<string>,
    sortOrder: int,
    photos: seq<InspectionPhoto>)
}
