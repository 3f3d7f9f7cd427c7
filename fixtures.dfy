/** The sample records of frontend/src/mockdata.ts that the helpers are run
    against in the application, and what the helpers give for them. */
module Fixtures {
  import opened Text
  import opened Seqs
  import opened Catalog
  import opened Security
  import opened Compose

  // ---------------------------------------------------------------------------
  // Images
  // ---------------------------------------------------------------------------

  const Nginx: DockerImage := DockerImage(
    "1", "nginx", "Official build of Nginx - high performance web server",
    true, true, 1500000000, 18500, None, "Web Servers",
    ["latest", "1.25.3", "1.25-alpine", "1.24.0", "alpine", "stable"], "1.25.3")

  const Postgres: DockerImage := DockerImage(
    "2", "postgres", "PostgreSQL is a powerful, open source object-relational database system",
    true, true, 800000000, 12300, None, "Databases",
    ["latest", "16", "15", "14", "16-alpine", "15.4", "14.9"], "16")

  const Redis: DockerImage := DockerImage(
    "3", "redis", "Redis is an open source key-value store",
    true, true, 1200000000, 11200, None, "Databases",
    ["latest", "7.2", "7.0", "6.2", "7.2-alpine", "alpine"], "7.2")

  /** The first three entries of the catalog. */
  const SampleImages: seq<DockerImage> := [Nginx, Postgres, Redis]

  // ---------------------------------------------------------------------------
  // Scan results
  // ---------------------------------------------------------------------------

  const NginxScan: ScanResult := ScanResult(
    "scan_001", "nginx", "1.21.0", Completed, "2025-10-01T10:30:00Z",
    VulnerabilitySummary(2, 5, 12, 8, 27))

  const PostgresScan: ScanResult := ScanResult(
    "scan_002", "postgres", "13", Completed, "2025-10-01T10:32:00Z",
    VulnerabilitySummary(0, 3, 8, 15, 26))

  const RedisScan: ScanResult := ScanResult(
    "scan_003", "redis", "7.2", Completed, "2025-10-01T10:33:00Z",
    VulnerabilitySummary(0, 0, 2, 5, 7))

  const SampleScans: seq<ScanResult> := [NginxScan, PostgresScan, RedisScan]

  // ---------------------------------------------------------------------------
  // Templates
  // ---------------------------------------------------------------------------

  const LampStack: Template := Template(
    "tpl_001", "LAMP Stack", "Linux, Apache, MySQL, PHP - Classic web development stack",
    "Web Applications", ["php", "mysql", "apache", "web"], None, 3, 8500,
    "1.2.0", "2025-09-15", "Docker Compose Generator")

  const MeanStack: Template := Template(
    "tpl_002", "MEAN Stack", "MongoDB, Express, Angular, Node.js - Modern JavaScript stack",
    "Web Applications", ["nodejs", "mongodb", "angular", "express"], None, 3, 7200,
    "2.0.1", "2025-09-20", "Docker Compose Generator")

  const SampleTemplates: seq<Template> := [LampStack, MeanStack]

  // ---------------------------------------------------------------------------
  // Service configurations
  // ---------------------------------------------------------------------------

  const RedisService: ServiceConfig := ServiceConfig(
    "srv_003", "redis", "redis", "7.2-alpine",
    [PortMapping(6379, 6379, "tcp")], [],
    [VolumeMount(Volume, "redis_data", "/data")], ["backend"], [], "unless-stopped",
    Some(HealthCheck(["CMD", "redis-cli", "ping"], "5s", "3s", 3)),
    Some(Resources(ResourceSpec("256M", "0.25"), ResourceSpec("128M", "0.1"))))

  // ---------------------------------------------------------------------------
  // What the helpers give for them
  // ---------------------------------------------------------------------------

  /** The security scores of the three sample scans. */
  lemma SampleScores()
    ensures SecurityScore(NginxScan.summary) == 23
    ensures SecurityScore(PostgresScan.summary) == 54
    ensures SecurityScore(RedisScan.summary) == 91
  {
  }

  /** Looking up a catalog name finds the first image of that name. */
  lemma SampleImageLookup()
    ensures GetImageByName(SampleImages, "redis") == Some(Redis)
  {
    GetImageByNameFirst(SampleImages, 2);
  }

  lemma SampleImageMiss()
    ensures GetImageByName(SampleImages, "mongo") == None
  {
  }

  /** Looking up a scan needs both the image and the tag to match. */
  lemma SampleScanLookup()
    ensures GetScanResult(SampleScans, "redis", "7.2") == Some(RedisScan)
  {
    FindAt(SampleScans, (scan: ScanResult) => scan.image == "redis" && scan.tag == "7.2", 2);
  }

  lemma SampleScanMiss()
    ensures GetScanResult(SampleScans, "nginx", "1.25.3") == None
  {
  }

  lemma SampleTemplateLookup()
    ensures GetTemplateById(SampleTemplates, "tpl_002") == Some(MeanStack)
  {
    FindAt(SampleTemplates, (tpl: Template) => tpl.id == "tpl_002", 1);
  }

  /** "Databases" keeps postgres and redis, in catalog order. */
  lemma SampleDatabases()
    ensures FilterImagesByCategory(SampleImages, "Databases") == [Postgres, Redis]
  {
    assert SampleImages == [Nginx] + [Postgres, Redis];
    assert [Postgres, Redis] == [Postgres] + [Redis];
    CategoryFilterAppend([Nginx], [Postgres, Redis], "Databases");
    CategoryFilterAppend([Postgres], [Redis], "Databases");
    CategoryFilterSingleton(Nginx, "Databases");
    CategoryFilterSingleton(Postgres, "Databases");
    CategoryFilterSingleton(Redis, "Databases");
  }

  /** "Web Servers" keeps nginx alone. */
  lemma SampleWebServers()
    ensures FilterImagesByCategory(SampleImages, "Web Servers") == [Nginx]
  {
    assert SampleImages == [Nginx] + [Postgres, Redis];
    assert [Postgres, Redis] == [Postgres] + [Redis];
    CategoryFilterAppend([Nginx], [Postgres, Redis], "Web Servers");
    CategoryFilterAppend([Postgres], [Redis], "Web Servers");
    CategoryFilterSingleton(Nginx, "Web Servers");
    CategoryFilterSingleton(Postgres, "Web Servers");
    CategoryFilterSingleton(Redis, "Web Servers");
  }

  lemma PostgresMatchesRe()
    ensures MatchesQuery(Postgres, "re")
  {
    assert Lower("postgres") == "postgres";
    assert OccursAt("postgres", "re", 5);
    IncludesIff("postgres", "re");
  }

  lemma RedisMatchesRe()
    ensures MatchesQuery(Redis, "re")
  {
    assert Lower("redis") == "redis";
    assert OccursAt("redis", "re", 0);
    IncludesIff("redis", "re");
  }

  /** "re", in any letter case, is in the name of postgres and of redis. */
  lemma SampleSearch()
    ensures Postgres in SearchImages(SampleImages, "re")
    ensures Redis in SearchImages(SampleImages, "RE")
    ensures SearchImages([Postgres, Redis], "Re") == [Postgres, Redis]
  {
    PostgresMatchesRe();
    RedisMatchesRe();
    assert Lower("re") == "re" && Lower("RE") == "re" && Lower("Re") == "re";
    assert SampleImages[1] == Postgres && SampleImages[2] == Redis;
    FilterKeepsAll([Postgres, Redis], img => MatchesQuery(img, "re"));
  }

  lemma RenderRedisPort()
    ensures IntToString(6379) == "6379"
  {
  }

  lemma RedisPortLine()
    ensures PortLine(RedisService.ports[0]) == "      - \"6379:6379\""
  {
    RenderRedisPort();
    assert PortLine(RedisService.ports[0]) == "      - \"" + "6379" + ":" + "6379" + "\"";
  }

  lemma RedisFixedLines()
    ensures NameLine(RedisService) == "  redis:"
    ensures ImageLine(RedisService) == "    image: redis:7.2-alpine"
    ensures RestartLine(RedisService) == "    restart: unless-stopped"
  {
    assert "  " + "redis" + ":" == "  redis:";
    assert "    image: " + "redis" + ":" + "7.2-alpine" == "    image: redis:7.2-alpine";
    assert "    restart: " + "unless-stopped" == "    restart: unless-stopped";
  }

  /** The lines of the redis service's block: no `environment` section,
      since its list is empty. */
  lemma RedisBlockLines()
    ensures BlockLines(RedisService) ==
      ["  redis:", "    image: redis:7.2-alpine", "    ports:", "      - \"6379:6379\"",
       "    restart: unless-stopped", ""]
  {
    RedisPortLine();
    RedisFixedLines();
    assert PortLines(RedisService.ports) == ["      - \"6379:6379\""];
  }

  /** The document for the redis service alone: the header lines, then the
      lines of its block, each ended by a line break. */
  lemma RedisDocument()
    ensures ComposeYaml([RedisService]) ==
      JoinLines(HeaderLines +
        ["  redis:", "    image: redis:7.2-alpine", "    ports:", "      - \"6379:6379\"",
         "    restart: unless-stopped", ""])
  {
    ComposeYamlIsLines([RedisService]);
    assert [RedisService][..0] == [];
    assert ServicesLines([RedisService]) == BlockLines(RedisService);
    RedisBlockLines();
  }
}
