/**
 * The custom stored-procedure configuration (config-sp-custom.js): per parent table its
 * aliases, child tables, optional precondition and custom filter parameters, and per
 * child table its suffix and ignored columns. The filter texts embed the configured
 * table schema.
 */
module SpCustom {
  import opened Wrappers
  import opened JsObject

  /** A custom filter parameter: SQL name and type, its filter text, and its C# property. */
  datatype CustomParameter = CustomParameter(
    name: string,
    sqlType: string,
    filterCriteriaContent: string,
    propertyName: string,
    propertyType: string)

  /** An entry of `spConfig`; `customParameters` keeps the object's key order. */
  datatype SpTable = SpTable(
    alias: map<string, string>,
    precondition: Option<string>,
    childTables: seq<string>,
    customParameters: Entries<CustomParameter>)

  /** An entry of `spChildTables`. */
  datatype ChildTable = ChildTable(suffix: string, ignoredColumns: seq<string>)

  /**
   * The `filterCriteriaContent` texts of the custom parameters, one per parameter in
   * declaration order. The generators only move these texts around, so they are carried
   * as a record; `FilterTextsFor` builds them for a table schema.
   */
  datatype FilterTexts = FilterTexts(
    brandUrl: string,
    deviceBrandId: string,
    userBrandUrl: string,
    userExternalProviderId: string,
    userExternalUserId: string,
    userRoleId: string,
    userSameOrganization: string,
    featurePackageId: string,
    packagePriceId: string,
    roleUserId: string,
    rolePermissionId: string,
    permissionRoleId: string,
    couponUserId: string,
    externalProviderUserId: string,
    issueOnlyParent: string,
    issueUserId: string,
    organizationUserId: string)

  /** The filter texts, as functions of the configured table schema. */
  function BrandUrlFilter(schema: string): string {
    "\t-- Gets ID from Brand URL if ID is not provided.\n"
    + "\tIF @Brand_URL IS NOT NULL AND @Brand_URL <> '' AND @ID IS "
    + "NULL\n"
    + "\tBEGIN\n"
    + "\t\tSET @ID = ["
    + schema
    + "].[fn_GetBrandID](@Brand_URL)\n"
    + "\tEND\n"
    + "  "
  }

  function DeviceBrandIdFilter(schema: string): string {
    "\t-- Filters by Brand_ID if Brand_ID is not null.\n"
    + "\tIF @Brand_ID IS NOT NULL AND @Brand_ID <> ''\n"
    + "\tBEGIN\n"
    + "\t\tSET @whereClause = CONCAT(@whereClause, ' AND [User_ID] "
    + "IN (SELECT [ID] FROM ["
    + schema
    + "].[User] WHERE [Brand_ID] IN (SELECT tvalue FROM ["
    + schema
    + "].[fn_Split](''', @Brand_ID, ''', DEFAULT))) ')\n"
    + "\tEND"
  }

  function UserBrandUrlFilter(schema: string): string {
    "\t-- Gets Brand_ID from Brand URL if Brand_ID is not "
    + "provided.\n"
    + "\tIF @Brand_URL IS NOT NULL AND @Brand_URL <> '' AND "
    + "@Brand_ID IS NULL\n"
    + "\tBEGIN\n"
    + "\t\tSET @Brand_ID = ["
    + schema
    + "].[fn_GetBrandID](@Brand_URL)\n"
    + "\tEND\n"
    + "  "
  }

  function UserExternalProviderIdFilter(schema: string): string {
    "\t-- Filters by External_Provider_ID if External_Provider_ID "
    + "is not null.\n"
    + "\tSET @whereClause = CONCAT(@whereClause, ["
    + schema
    + "].[fn_GetForeignKeyFilterCriteriaWithTableAlias]('User_ID', "
    + "'ExternalAuthenticationProviderUser', "
    + "'External_Authentication_Provider_ID', "
    + "@External_Provider_ID, 'U'), @newline)\n"
  }

  function UserExternalUserIdFilter(schema: string): string {
    "\t-- Filters by External_User_ID if External_User_ID is not "
    + "null.\n"
    + "\tSET @whereClause = CONCAT(@whereClause, ["
    + schema
    + "].[fn_GetForeignKeyFilterCriteriaWithTableAlias]('User_ID', "
    + "'ExternalAuthenticationProviderUser', "
    + "'External_Authentication_User_ID', @External_User_ID, 'U'), "
    + "@newline)\n"
  }

  function UserRoleIdFilter(schema: string): string {
    "\t-- Filters by Role_ID if Role_ID is not null.\n"
    + "\tSET @whereClause = CONCAT(@whereClause, ["
    + schema
    + "].[fn_GetForeignKeyFilterCriteriaWithTableAlias]('User_ID', "
    + "'UserRole', 'Role_ID', @Role_ID, 'U'), @newline)\n"
    + "  "
  }

  function UserSameOrganizationFilter(schema: string): string {
    "\t-- Filters by Same_Organization_With_User_ID if "
    + "Same_Organization_With_User_ID is not null.\n"
    + "\tIF @Same_Organization_With_User_ID IS NOT NULL AND "
    + "@Same_Organization_With_User_ID <> 0\n"
    + "\tBEGIN\n"
    + "\tSET @whereClause = CONCAT(@whereClause, ' AND U.[ID] IN "
    + "(SELECT DISTINCT OU.[User_ID] FROM ["
    + schema
    + "].[OrganizationUser] OU WHERE OU.[Organization_ID] IN "
    + "(SELECT O.[ID] FROM ["
    + schema
    + "].[Organization] O JOIN ["
    + schema
    + "].[OrganizationUser] OU ON O.[ID] = OU.[Organization_ID] "
    + "WHERE OU.[Status] = 1 AND OU.[User_ID] = ', "
    + "@Same_Organization_With_User_ID, ')) ', @newline)\n"
    + "\tEND"
  }

  function FeaturePackageIdFilter(schema: string): string {
    "\t-- Filters by Package_ID if Package_ID is not null.\n"
    + "  \tSET @whereClause = CONCAT(@whereClause, ["
    + schema
    + "].[fn_GetForeignKeyFilterCriteria]('Feature_ID', "
    + "'PackageFeature', 'Package_ID', @Package_ID), @newline)\n"
    + "  "
  }

  function PackagePriceIdFilter(schema: string): string {
    "\t-- Filters by Price_ID if Price_ID is not null.\n"
    + "\tSET @whereClause = CONCAT(@whereClause, ["
    + schema
    + "].[fn_GetForeignKeyFilterCriteria]('Package_ID', 'Price', "
    + "'ID', @Price_ID), @newline)\n"
    + "  "
  }

  function RoleUserIdFilter(schema: string): string {
    "\t-- Filters by User_ID if User_ID is not null.\n"
    + "\tSET @whereClause = CONCAT(@whereClause, ["
    + schema
    + "].[fn_GetForeignKeyFilterCriteria]('Role_ID', 'UserRole', "
    + "'User_ID', @User_ID), @newline)\n"
  }

  function RolePermissionIdFilter(schema: string): string {
    "\t-- Filters by Permission_ID if Permission_ID is not null.\n"
    + "\tSET @whereClause = CONCAT(@whereClause, ["
    + schema
    + "].[fn_GetForeignKeyFilterCriteria]('Role_ID', "
    + "'RolePermission', 'Permission_ID', @Permission_ID), "
    + "@newline)\n"
  }

  function PermissionRoleIdFilter(schema: string): string {
    "\t-- Filters by Role_ID if Role_ID is not null.\n"
    + "\tSET @whereClause = CONCAT(@whereClause, ["
    + schema
    + "].[fn_GetForeignKeyFilterCriteria]('Permission_ID', "
    + "'RolePermission', 'Role_ID', @Role_ID), @newline)\n"
    + "  "
  }

  function CouponUserIdFilter(schema: string): string {
    "\t-- Filters by User_ID if User_ID is not null.\n"
    + "\tSET @whereClause = CONCAT(@whereClause, ["
    + schema
    + "].[fn_GetForeignKeyFilterCriteria]('Coupon_ID', "
    + "'CouponUser', 'User_ID', @User_ID), @newline)\n"
    + "  "
  }

  function ExternalProviderUserIdFilter(schema: string): string {
    "\t-- Filters by User_ID if User_ID is not null.\n"
    + "\tSET @whereClause = CONCAT(@whereClause, ["
    + schema
    + "].[fn_GetForeignKeyFilterCriteria]('ExternalProvider_ID', "
    + "'UserExternalProvider', 'User_ID', @User_ID), @newline)\n"
    + "  "
  }

  function IssueOnlyParentFilter(): string {
    "\t-- [SP Custom] Filters by Only_Parent if Only_Parent is "
    + "not null.\n"
    + "\tIF (@Only_Parent IS NULL OR @Only_Parent = 1) AND "
    + "@Parent_ID IS NULL\n"
    + "\tBEGIN\n"
    + "\tSET @whereClause = CONCAT(@whereClause, ' AND [Parent_ID] "
    + "IS NULL ', @newline)\n"
    + "\tEND\n"
  }

  function IssueUserIdFilter(): string {
    "\t-- [SP Custom] Filters by User_ID if User_ID is not null. "
    + "We search on Modified_By and Created_By for User_ID.\n"
    + "\tIF @User_ID IS NOT NULL AND @User_ID <> ''\n"
    + "\tBEGIN\n"
    + "\tSET @whereClause = CONCAT(@whereClause, ' AND [Created_By] "
    + "IN (SELECT tvalue FROM [JFW].[fn_Split](''', @User_ID, ''', "
    + "DEFAULT)) ', @newline)\n"
    + "\tEND\n"
  }

  function OrganizationUserIdFilter(schema: string): string {
    "\t-- Filters by User_ID if User_ID is not null.\n"
    + "\tSET @whereClause = CONCAT(@whereClause, ["
    + schema
    + "].[fn_GetForeignKeyFilterCriteria]('Organization_ID', "
    + "'OrganizationUser', 'User_ID', @User_ID), @newline)\n"
  }

  /** The filter texts with `schema` substituted, as the configuration file builds them. */
  function FilterTextsFor(schema: string): (texts: FilterTexts)
  {
    FilterTexts(
      BrandUrlFilter(schema),
      DeviceBrandIdFilter(schema),
      UserBrandUrlFilter(schema),
      UserExternalProviderIdFilter(schema),
      UserExternalUserIdFilter(schema),
      UserRoleIdFilter(schema),
      UserSameOrganizationFilter(schema),
      FeaturePackageIdFilter(schema),
      PackagePriceIdFilter(schema),
      RoleUserIdFilter(schema),
      RolePermissionIdFilter(schema),
      PermissionRoleIdFilter(schema),
      CouponUserIdFilter(schema),
      ExternalProviderUserIdFilter(schema),
      IssueOnlyParentFilter(),
      IssueUserIdFilter(),
      OrganizationUserIdFilter(schema))
  }

  /** `spConfig`, with the given filter texts. */
  function SpConfig(texts: FilterTexts): map<string, SpTable>
  {
    map["Brand" := BrandConfig(texts),
        "Device" := DeviceConfig(texts),
        "User" := UserConfig(texts),
        "Feature" := FeatureConfig(texts),
        "Package" := PackageConfig(texts),
        "Role" := RoleConfig(texts),
        "Permission" := PermissionConfig(texts),
        "Coupon" := CouponConfig(texts),
        "ExternalProvider" := ExternalProviderConfig(texts),
        "Issue" := IssueConfig(texts),
        "Organization" := OrganizationConfig(texts)]
  }

  /** `spConfig.Brand`. */
  function BrandConfig(texts: FilterTexts): SpTable
  {
    SpTable(
      map["Brand" := "B", "BrandEmail" := "BE", "BrandSetting" := "BS", "BrandProfile" := "BP"],
      None,
      ["BrandEmail", "BrandSetting", "BrandProfile"],
      [("Brand_URL", CustomParameter("Brand_URL", "VARCHAR(MAX)", texts.brandUrl, "BrandUrl", "string"))])
  }

  /** `spConfig.Device`. */
  function DeviceConfig(texts: FilterTexts): SpTable
  {
    SpTable(
      map["Device" := "D", "DeviceProfile" := "DP", "DeviceSetting" := "DS"],
      None,
      ["DeviceProfile", "DeviceSetting"],
      [("brandId", CustomParameter("Brand_ID", "VARCHAR(MAX)", texts.deviceBrandId, "BrandId", "string"))])
  }

  /** `spConfig.User`. */
  function UserConfig(texts: FilterTexts): SpTable
  {
    SpTable(
      map["User" := "U", "UserProfile" := "UP", "UserSetting" := "US"],
      Some(""),
      ["UserProfile", "UserSetting"],
      [("brandUrl", CustomParameter("Brand_URL", "VARCHAR(MAX)", texts.userBrandUrl, "BrandUrl", "string")),
       ("externalProviderId", CustomParameter("External_Provider_ID", "VARCHAR(MAX)", texts.userExternalProviderId, "ExternalProviderId", "string")),
       ("externalUserId", CustomParameter("External_User_ID", "VARCHAR(MAX)", texts.userExternalUserId, "ExternalUserId", "string")),
       ("roleId", CustomParameter("Role_ID", "VARCHAR(MAX)", texts.userRoleId, "RoleId", "string")),
       ("sameOrganizationWithUserId", CustomParameter("Same_Organization_With_User_ID", "BIGINT", texts.userSameOrganization, "SameOrganizationWithUserId", "long?"))])
  }

  /** `spConfig.Feature`. */
  function FeatureConfig(texts: FilterTexts): SpTable
  {
    SpTable(
      map["Feature" := "F"], None, [],
      [("packageId", CustomParameter("Package_ID", "VARCHAR(MAX)", texts.featurePackageId, "PackageId", "string"))])
  }

  /** `spConfig.Package`. */
  function PackageConfig(texts: FilterTexts): SpTable
  {
    SpTable(
      map["Package" := "P"], None, [],
      [("priceId", CustomParameter("Price_ID", "VARCHAR(MAX)", texts.packagePriceId, "PriceId", "string"))])
  }

  /** `spConfig.Role`. */
  function RoleConfig(texts: FilterTexts): SpTable
  {
    SpTable(
      map["Role" := "R"], None, [],
      [("userId", CustomParameter("User_ID", "VARCHAR(MAX)", texts.roleUserId, "UserId", "string")),
       ("permissionId", CustomParameter("Permission_ID", "VARCHAR(MAX)", texts.rolePermissionId, "PermissionId", "string"))])
  }

  /** `spConfig.Permission`. */
  function PermissionConfig(texts: FilterTexts): SpTable
  {
    SpTable(
      map["Permission" := "P"], None, [],
      [("roleId", CustomParameter("Role_ID", "VARCHAR(MAX)", texts.permissionRoleId, "RoleId", "string"))])
  }

  /** `spConfig.Coupon`. */
  function CouponConfig(texts: FilterTexts): SpTable
  {
    SpTable(
      map["Coupon" := "C"], None, [],
      [("userId", CustomParameter("User_ID", "VARCHAR(MAX)", texts.couponUserId, "UserId", "string"))])
  }

  /** `spConfig.ExternalProvider`. */
  function ExternalProviderConfig(texts: FilterTexts): SpTable
  {
    SpTable(
      map["ExternalProvider" := "EP"], None, [],
      [("userId", CustomParameter("User_ID", "VARCHAR(MAX)", texts.externalProviderUserId, "UserId", "string"))])
  }

  /** `spConfig.Issue`. */
  function IssueConfig(texts: FilterTexts): SpTable
  {
    SpTable(
      map["Issue" := "I"], None, [],
      [("onlyParent", CustomParameter("Only_Parent", "BIT", texts.issueOnlyParent, "OnlyParent", "bool?")),
       ("userId", CustomParameter("User_ID", "VARCHAR(MAX)", texts.issueUserId, "UserId", "string"))])
  }

  /** `spConfig.Organization`. */
  function OrganizationConfig(texts: FilterTexts): SpTable
  {
    SpTable(
      map["Organization" := "O"], None, [],
      [("userId", CustomParameter("User_ID", "VARCHAR(MAX)", texts.organizationUserId, "UserId", "string"))])
  }

  /** The audit columns every child table ignores after its parent key. */
  const AuditColumns: seq<string> := ["Modified_By", "Modified_Date", "Created_By", "Created_Date"]

  /** `spChildTables`. */
  const SpChildTables: map<string, ChildTable> := map[
    "BrandEmail" := ChildTable("Email", ["Brand_ID"] + AuditColumns),
    "BrandSetting" := ChildTable("Setting", ["Brand_ID"] + AuditColumns),
    "BrandProfile" := ChildTable("Profile", ["Brand_ID"] + AuditColumns),
    "DeviceProfile" := ChildTable("Profile", ["Device_ID"] + AuditColumns),
    "DeviceSetting" := ChildTable("Setting", ["Device_ID"] + AuditColumns),
    "UserProfile" := ChildTable("Profile", ["User_ID"] + AuditColumns),
    "UserSetting" := ChildTable("Setting", ["User_ID"] + AuditColumns)
  ]

  /**
   * The family invariant the generators rely on for a `spConfig` entry: its `alias` map
   * names the parent and every child table; every child table is a key of
   * `spChildTables` whose `ignoredColumns` are `<Parent>_ID` followed by the four audit
   * columns; and the children's suffixes are pairwise distinct.
   */
  ghost predicate FamilyOk(name: string, t: SpTable) {
    && name in t.alias
    && (forall c :: c in t.childTables ==>
          && c in t.alias
          && c in SpChildTables
          && SpChildTables[c].ignoredColumns == [name + "_ID"] + AuditColumns)
    && (forall j, k :: 0 <= j < k < |t.childTables| ==>
          && t.childTables[j] in SpChildTables
          && t.childTables[k] in SpChildTables
          && SpChildTables[t.childTables[j]].suffix != SpChildTables[t.childTables[k]].suffix)
  }

  /** A table without children satisfies `FamilyOk` once its alias map names it. */
  lemma NoChildren(name: string, t: SpTable)
    requires name in t.alias && t.childTables == []
    ensures FamilyOk(name, t)
  {
  }

  /** A family of two children whose entries are as `FamilyOk` requires. */
  lemma TwoChildren(name: string, t: SpTable, a: string, b: string)
    requires name in t.alias && t.childTables == [a, b]
    requires a in t.alias && a in SpChildTables && SpChildTables[a].ignoredColumns == [name + "_ID"] + AuditColumns
    requires b in t.alias && b in SpChildTables && SpChildTables[b].ignoredColumns == [name + "_ID"] + AuditColumns
    requires SpChildTables[a].suffix != SpChildTables[b].suffix
    ensures FamilyOk(name, t)
  {
  }

  /** A family of three children whose entries are as `FamilyOk` requires. */
  lemma ThreeChildren(name: string, t: SpTable, a: string, b: string, c: string)
    requires name in t.alias && t.childTables == [a, b, c]
    requires a in t.alias && a in SpChildTables && SpChildTables[a].ignoredColumns == [name + "_ID"] + AuditColumns
    requires b in t.alias && b in SpChildTables && SpChildTables[b].ignoredColumns == [name + "_ID"] + AuditColumns
    requires c in t.alias && c in SpChildTables && SpChildTables[c].ignoredColumns == [name + "_ID"] + AuditColumns
    requires SpChildTables[a].suffix != SpChildTables[b].suffix
    requires SpChildTables[a].suffix != SpChildTables[c].suffix
    requires SpChildTables[b].suffix != SpChildTables[c].suffix
    ensures FamilyOk(name, t)
  {
  }

  /** The family invariant for Brand. */
  lemma BrandFamily(texts: FilterTexts)
    ensures FamilyOk("Brand", BrandConfig(texts))
  {
    assert "Brand" + "_ID" == "Brand_ID";
    ThreeChildren("Brand", BrandConfig(texts), "BrandEmail", "BrandSetting", "BrandProfile");
  }

  /** The family invariant for Device. */
  lemma DeviceFamily(texts: FilterTexts)
    ensures FamilyOk("Device", DeviceConfig(texts))
  {
    assert "Device" + "_ID" == "Device_ID";
    TwoChildren("Device", DeviceConfig(texts), "DeviceProfile", "DeviceSetting");
  }

  /** The family invariant for User. */
  lemma UserFamily(texts: FilterTexts)
    ensures FamilyOk("User", UserConfig(texts))
  {
    assert "User" + "_ID" == "User_ID";
    TwoChildren("User", UserConfig(texts), "UserProfile", "UserSetting");
  }

  /** Every `spConfig` entry satisfies the family invariant. */
  lemma FamilyInvariant(texts: FilterTexts, name: string)
    requires name in SpConfig(texts)
    ensures FamilyOk(name, SpConfig(texts)[name])
  {
    var t := SpConfig(texts)[name];
    if name == "Brand" {
      BrandFamily(texts);
    } else if name == "Device" {
      DeviceFamily(texts);
    } else if name == "User" {
      UserFamily(texts);
    } else {
      assert name in t.alias && t.childTables == [];
      NoChildren(name, t);
    }
  }

  /** Every custom parameter has a non-empty name and type and a C# property name and type. */
  lemma CustomParametersComplete(texts: FilterTexts, name: string, p: (string, CustomParameter))
    requires name in SpConfig(texts)
    requires p in SpConfig(texts)[name].customParameters
    ensures p.1.name != "" && p.1.sqlType != ""
    ensures p.1.propertyName != "" && p.1.propertyType != ""
  {
  }

  /** Only Brand, Device and User have child tables. */
  lemma OnlyThreeParents(texts: FilterTexts, name: string)
    requires name in SpConfig(texts)
    ensures SpConfig(texts)[name].childTables != [] <==> name in ["Brand", "Device", "User"]
  {
  }
}
