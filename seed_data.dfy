/** The sample content the in-memory store is seeded with at start-up. */
module SeedData {
  import opened Options
  import opened Schema
  import Bcrypt

  const DowntownImage: string := "/attached_assets/generated_images/Downtown_office_complex_project_a7188b97.png"
  const WarehouseImage: string := "/attached_assets/generated_images/Warehouse_facility_project_image_250c615d.png"
  const ResidentialImage: string := "/attached_assets/generated_images/Residential_tower_project_image_c053e212.png"
  const ShoppingImage: string := "/attached_assets/generated_images/Shopping_mall_construction_image_3be47d9c.png"
  const UniversityImage: string := "/attached_assets/generated_images/University_campus_building_image_55835342.png"

  /** The five sample projects, without their ids and creation times. */
  const SampleProjects: seq<InsertProject> := [
    InsertProject(
      "Downtown Office Complex",
      "A state-of-the-art 25-story office complex featuring modern architectural design, sustainable materials, and cutting-edge technology infrastructure. The project includes 500,000 square feet of Class A office space with premium amenities.",
      "New York, NY", "In Progress", Some(75), "2023-01-15", "2024-12-30", Some(DowntownImage)),
    InsertProject(
      "Industrial Warehouse Facility",
      "Large-scale warehouse complex designed for modern logistics operations. Features high ceilings, advanced loading docks, and efficient layout optimized for distribution and storage.",
      "Chicago, IL", "Planning", Some(5), "2025-03-01", "2026-05-30", Some(WarehouseImage)),
    InsertProject(
      "Luxury Residential Tower",
      "Beautiful 40-story residential tower offering luxury apartments with stunning city views. Features modern amenities including rooftop terrace, fitness center, and concierge service.",
      "Los Angeles, CA", "Completed", Some(100), "2022-06-01", "2024-08-15", Some(ResidentialImage)),
    InsertProject(
      "Shopping Mall Renovation",
      "Complete renovation of existing shopping center into a modern retail destination. Includes updated storefronts, improved parking, and enhanced customer experience areas.",
      "Houston, TX", "In Progress", Some(45), "2024-02-01", "2025-08-30", Some(ShoppingImage)),
    InsertProject(
      "University Campus Building",
      "New academic building for state university featuring modern classrooms, research labs, and collaborative learning spaces. LEED Gold certified sustainable design.",
      "Seattle, WA", "Planning", Some(15), "2024-11-01", "2026-10-30", Some(UniversityImage))
  ]

  /** The six sample images; `projectIds` are the project map's keys in insertion order, and
      the images point at the first, second, third, fourth, first and second of them. */
  function SampleImages(projectIds: seq<Id>): (r: seq<InsertGalleryImage>)
    requires |projectIds| >= 4
    ensures |r| == 6
    ensures forall i :: 0 <= i < 6 ==> r[i].projectId == Some(projectIds[i % 4])
  {
    [ InsertGalleryImage(DowntownImage, Some("Downtown Office Complex - Exterior View"), Some(projectIds[0])),
      InsertGalleryImage(WarehouseImage, Some("Industrial Warehouse - Construction Progress"), Some(projectIds[1])),
      InsertGalleryImage(ResidentialImage, Some("Residential Villa Project - Completed"), Some(projectIds[2])),
      InsertGalleryImage(ShoppingImage, Some("Shopping Mall Construction - Interior"), Some(projectIds[3])),
      InsertGalleryImage(UniversityImage, Some("Downtown Office Complex - Progress Update"), Some(projectIds[0])),
      InsertGalleryImage(ResidentialImage, Some("Industrial Warehouse - Exterior"), Some(projectIds[1])) ]
  }

  /** The settings record the store starts with. */
  function InitialSettings(id: Id): (s: Settings)
    ensures s.id == id
  {
    Settings(id,
      Some(DefaultCompanyName), Some(DefaultCompanyAddress), Some(DefaultCompanyEmail),
      Some(DefaultCompanyPhone), Some(DefaultEmergencyPhone), Some(DefaultBusinessHours),
      Some("https://facebook.com"), Some("https://twitter.com"), Some("https://linkedin.com"),
      Some("https://instagram.com"), None, Some(DefaultMapLatitude), Some(DefaultMapLongitude))
  }

  /** The start-up settings hold the column default in every column that has one, and
      additionally fill in the four social links, which have no column default. */
  lemma InitialSettingsUseColumnDefaults(id: Id)
    ensures WithSettingsDefaults(SettingsInsert(InitialSettings(id))) == SettingsInsert(InitialSettings(id))
    ensures SettingsInsert(InitialSettings(id))
         == WithSettingsDefaults(InsertSettings(None, None, None, None, None, None, None, None, None, None, None, None, None))
              .(facebookUrl := Some("https://facebook.com"), twitterUrl := Some("https://twitter.com"),
                linkedinUrl := Some("https://linkedin.com"), instagramUrl := Some("https://instagram.com"))
  {
  }

  /** The seeded administrator: user name "admin", password "admin123" hashed with `salt`. */
  function AdminUser(id: Id, salt: nat, createdAt: Time): (u: User)
    ensures u.id == id && u.username == "admin" && u.password == Bcrypt.Hash("admin123", salt)
  {
    User(id, "admin", Bcrypt.Hash("admin123", salt), "admin@kvdlconstruction.com", Some("admin"), Some(createdAt))
  }
}
